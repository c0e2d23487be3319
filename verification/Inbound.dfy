// Routing messages from external channels to contacts, deals and conversations
// of one workspace (backend/app/integrations/inbound.py).
module Inbound {
  import opened Prelude
  import opened Ranking

  type Id = nat

  datatype Contact = Contact(email: Option<string>, deleted: bool)

  datatype IdentityKey = IdentityKey(provider: string, connection: Id, user: string)

  datatype Identity = Identity(key: IdentityKey, contact: Id)

  datatype Deal = Deal(pipeline: Id, stage: Id, deleted: bool, createdAt: int, lastActivity: int, version: nat)

  datatype Stage = Stage(pipeline: Id, isOpen: bool)

  datatype Connection = Connection(pipeline: Option<Id>, stage: Option<Id>, assigneeActive: bool)

  datatype Status = Active | Closed | ReviewNeeded

  datatype Conversation = Conversation(
    connection: Id, thread: string, contact: Option<Id>, deal: Id, status: Status, lastMessageAt: int, version: nat)

  datatype Message = Message(conversation: Id, provider: string, replyTo: Option<string>, receivedAt: int)

  // links pairs deals with contacts; points pairs contacts with addresses.
  datatype Db = Db(
    stages: map<Id, Stage>, connections: map<Id, Connection>,
    contacts: map<Id, Contact>, points: set<(Id, string)>, identities: seq<Identity>,
    deals: map<Id, Deal>, links: set<(Id, Id)>,
    conversations: map<Id, Conversation>, messages: seq<Message>, next: Id)

  // What a channel delivers.
  datatype Delivery = Delivery(
    connection: Id, provider: string, thread: string, message: string, sender: string,
    replyTo: Option<string>, occurredAt: int, now: int)

  // Address normalization and the database's lower-casing.
  datatype Text = Text(normalize: string -> Option<string>, lower: string -> string)

  datatype Error = NoConnection | NoDefaultStage | WrongStage | InactiveAssignee | InvalidAddress | DuplicateIdentity

  datatype Result<T> = Ok(value: T) | Err(error: Error)

  datatype Route = Route(pipeline: Id, stage: Id)

  // ----- the route of a connection -----

  // _connection_route and _validate_route
  function RouteOf(db: Db, connection: Id): Result<Route> {
    if connection !in db.connections then Err(NoConnection)
    else
      var c := db.connections[connection];
      if c.pipeline.None? || c.stage.None? then Err(NoDefaultStage)
      else if c.stage.value !in db.stages || db.stages[c.stage.value].pipeline != c.pipeline.value then Err(WrongStage)
      else if !c.assigneeActive then Err(InactiveAssignee)
      else Ok(Route(c.pipeline.value, c.stage.value))
  }

  // ----- who the sender is -----

  predicate Live(db: Db, contact: Id) {
    contact in db.contacts && !db.contacts[contact].deleted
  }

  function KeyOf(d: Delivery): IdentityKey {
    IdentityKey(d.provider, d.connection, d.sender)
  }

  // match_external_identity
  function IdentityMatch(db: Db, key: IdentityKey): set<Id> {
    set i | i in db.identities && i.key == key && Live(db, i.contact) :: i.contact
  }

  // match_contact_point and the scan of primary addresses
  function AddressMatch(text: Text, db: Db, address: string): set<Id> {
    set c | c in db.contacts && Live(db, c)
      && ((c, address) in db.points || (db.contacts[c].email.Some? && text.lower(db.contacts[c].email.value) == address))
  }

  datatype Match = Match(contact: Option<Id>, ambiguous: bool)

  function One(ids: set<Id>): Match {
    if |ids| > 1 then Match(None, true)
    else if |ids| == 1 then
      OnlyMember(ids);
      var c :| c in ids;
      Match(Some(c), false)
    else Match(None, false)
  }

  lemma OnlyMember(ids: set<Id>)
    requires |ids| == 1
    ensures exists c :: ids == {c}
  {
    var c :| c in ids;
    assert |ids - {c}| == 0;
    assert ids == {c};
  }

  // _match_provider_contact
  function AddressFallback(text: Text, db: Db, d: Delivery): Match {
    if d.provider != "email" || text.normalize(d.sender).None? then Match(None, false)
    else One(AddressMatch(text, db, text.normalize(d.sender).value))
  }

  // An insert that the unique key of the identities may refuse.
  function WithIdentity(db: Db, key: IdentityKey, contact: Id): Result<Db> {
    if exists i :: i in db.identities && i.key == key then Err(DuplicateIdentity)
    else Ok(db.(identities := db.identities + [Identity(key, contact)]))
  }

  // A sender nobody knows becomes a contact, an e-mail sender with its address.
  function WithSender(text: Text, db: Db, d: Delivery): Result<(Db, Match)> {
    var known := One(IdentityMatch(db, KeyOf(d)));
    if known.contact.Some? || known.ambiguous then Ok((db, known))
    else
      var fallback := AddressFallback(text, db, d);
      if fallback.ambiguous then Ok((db, fallback))
      else if fallback.contact.Some? then
        var r := WithIdentity(db, KeyOf(d), fallback.contact.value);
        if r.Err? then Err(r.error) else Ok((r.value, fallback))
      else
        var c := db.next;
        var email := if d.provider == "email" then Some(d.sender) else None;
        var r := WithIdentity(db.(contacts := db.contacts[c := Contact(email, false)], next := c + 1), KeyOf(d), c);
        if r.Err? then Err(r.error)
        else if d.provider != "email" then Ok((r.value, Match(Some(c), false)))
        else if text.normalize(d.sender).None? then Err(InvalidAddress)
        else Ok((r.value.(points := r.value.points + {(c, text.normalize(d.sender).value)}), Match(Some(c), false)))
  }

  // ----- deals -----

  predicate OpenLive(db: Db, deal: Id) {
    && deal in db.deals && !db.deals[deal].deleted
    && db.deals[deal].stage in db.stages && db.stages[db.deals[deal].stage].isOpen
  }

  function OpenDeals(db: Db, contact: Id, pipeline: Id): set<Id> {
    set d | d in db.deals && OpenLive(db, d) && db.deals[d].pipeline == pipeline && (d, contact) in db.links
  }

  // Latest activity first, then the newest; the id decides what is left open.
  predicate Fresher(db: Db, x: Id, y: Id) {
    && x in db.deals && y in db.deals
    && (db.deals[x].lastActivity > db.deals[y].lastActivity
        || (db.deals[x].lastActivity == db.deals[y].lastActivity
            && (db.deals[x].createdAt > db.deals[y].createdAt || (db.deals[x].createdAt == db.deals[y].createdAt && x > y))))
  }

  function ByActivity(db: Db): (Id, Id) -> bool {
    (x: Id, y: Id) => Fresher(db, x, y)
  }

  lemma ActivityIsStrict(db: Db, ids: set<Id>)
    requires ids <= db.deals.Keys
    ensures StrictOrder(ids, ByActivity(db))
  {
  }

  // _find_open_deal
  function FindOpenDeal(db: Db, contact: Option<Id>, pipeline: Id): Option<Id> {
    if contact.None? then None
    else
      var ids := OpenDeals(db, contact.value, pipeline);
      ActivityIsStrict(db, ids);
      RankedSorts(ids, ByActivity(db));
      if ids == {} then None else Some(Ranked(ids, ByActivity(db))[0])
  }

  // _create_deal; the new deal is db.next
  function WithDeal(db: Db, route: Route, contact: Option<Id>, now: int): Db {
    db.(deals := db.deals[db.next := Deal(route.pipeline, route.stage, false, now, now, 1)],
        links := if contact.Some? then db.links + {(db.next, contact.value)} else db.links,
        next := db.next + 1)
  }

  // ----- conversations -----

  predicate OfThread(db: Db, k: Id, connection: Id, thread: string) {
    k in db.conversations && db.conversations[k].connection == connection && db.conversations[k].thread == thread
  }

  ghost function FindThread(db: Db, connection: Id, thread: string): Option<Id> {
    if k :| OfThread(db, k, connection, thread) then Some(k) else None
  }

  predicate HasMessage(db: Db, k: Id, message: string) {
    exists m :: m in db.messages && m.conversation == k && m.provider == message
  }

  function SetConversation(db: Db, k: Id, c: Conversation): Db {
    db.(conversations := db.conversations[k := c])
  }

  function Reopened(db: Db, k: Id): Db
    requires k in db.conversations
  {
    var c := db.conversations[k];
    if c.status != Closed then db
    else SetConversation(db, k, c.(status := if c.contact.Some? then Active else ReviewNeeded, version := c.version + 1))
  }

  // The first message of a thread.
  function WithThread(text: Text, db: Db, d: Delivery, route: Route): Result<(Db, Id)> {
    var sender := WithSender(text, db, d);
    if sender.Err? then Err(sender.error)
    else
      var (known, who) := sender.value;
      var found := FindOpenDeal(known, who.contact, route.pipeline);
      var dealt := if found.Some? then known else WithDeal(known, route, who.contact, d.now);
      var deal := if found.Some? then found.value else known.next;
      var k := dealt.next;
      Ok((SetConversation(dealt, k, Conversation(d.connection, d.thread, who.contact, deal,
                                                 if who.ambiguous then ReviewNeeded else Active, d.occurredAt, 1)).(next := k + 1), k))
  }

  // _open_conversation_deal
  function WithOpenDeal(db: Db, k: Id, route: Route, now: int): Db
    requires k in db.conversations
  {
    var c := db.conversations[k];
    if OpenLive(db, c.deal) then db
    else SetConversation(WithDeal(db, route, c.contact, now), k, c.(deal := db.next, version := c.version + 1))
  }

  function WithMessage(db: Db, k: Id, d: Delivery): Db
    requires k in db.conversations && db.conversations[k].deal in db.deals
  {
    var c := db.conversations[k];
    var reply := if d.replyTo.Some? && HasMessage(db, k, d.replyTo.value) then d.replyTo else None;
    SetConversation(db, k, c.(lastMessageAt := d.occurredAt, version := c.version + 1))
      .(messages := db.messages + [Message(k, d.message, reply, d.occurredAt)],
        deals := db.deals[c.deal := db.deals[c.deal].(lastActivity := d.occurredAt, version := db.deals[c.deal].version + 1)])
  }

  function Stored(db: Db, k: Id, d: Delivery, route: Route): Db
    requires k in db.conversations
  {
    var db' := WithOpenDeal(db, k, route, d.now);
    WithMessage(db', k, d)
  }

  // _route_channel_message; an error leaves everything as it was
  ghost function Routed(text: Text, db: Db, d: Delivery): Result<Db> {
    var route := RouteOf(db, d.connection);
    if route.Err? then Err(route.error)
    else
      var k := FindThread(db, d.connection, d.thread);
      if k.Some? then
        if HasMessage(db, k.value, d.message) then Ok(db)
        else Ok(Stored(Reopened(db, k.value), k.value, d, route.value))
      else
        var thread := WithThread(text, db, d, route.value);
        if thread.Err? then Err(thread.error)
        else Ok(Stored(thread.value.0, thread.value.1, d, route.value))
  }

  // ----- what always holds -----

  ghost predicate OneThread(db: Db) {
    forall j, k :: j in db.conversations && k in db.conversations
      && db.conversations[j].connection == db.conversations[k].connection && db.conversations[j].thread == db.conversations[k].thread
      ==> j == k
  }

  ghost predicate OneMessage(db: Db) {
    forall i, j :: 0 <= i < j < |db.messages| ==>
      db.messages[i].conversation != db.messages[j].conversation || db.messages[i].provider != db.messages[j].provider
  }

  // Identities are unique and belong to live contacts only.
  ghost predicate IdentitiesOk(db: Db) {
    && (forall i, j :: 0 <= i < j < |db.identities| ==> db.identities[i].key != db.identities[j].key)
    && (forall i :: i in db.identities ==> Live(db, i.contact))
  }

  ghost predicate IdsOk(db: Db) {
    && (forall k :: k in db.contacts ==> k < db.next) && (forall k :: k in db.deals ==> k < db.next)
    && (forall k :: k in db.conversations ==> k < db.next)
    && (forall m :: m in db.messages ==> m.conversation in db.conversations)
    && (forall k :: k in db.conversations ==> db.conversations[k].deal in db.deals)
  }

  ghost predicate Inv(db: Db) {
    OneThread(db) && OneMessage(db) && IdentitiesOk(db) && IdsOk(db)
  }

  // Threads and messages are never taken back.
  ghost predicate Onward(s: Db, t: Db) {
    && (forall k, connection, thread :: OfThread(s, k, connection, thread) ==> OfThread(t, k, connection, thread))
    && s.messages <= t.messages
  }

  // ----- the tables -----

  class Tables {
    var stages: map<Id, Stage>
    var connections: map<Id, Connection>
    var contacts: map<Id, Contact>
    var points: set<(Id, string)>
    var identities: seq<Identity>
    var deals: map<Id, Deal>
    var links: set<(Id, Id)>
    var conversations: map<Id, Conversation>
    var messages: seq<Message>
    var next: Id

    function Contents(): Db
      reads this
    {
      Db(stages, connections, contacts, points, identities, deals, links, conversations, messages, next)
    }

    method CreateDeal(route: Route, contact: Option<Id>, now: int) returns (deal: Id)
      modifies this
      ensures Contents() == WithDeal(old(Contents()), route, contact, now) && deal == old(next)
    {
      deal := next;
      deals := deals[deal := Deal(route.pipeline, route.stage, false, now, now, 1)];
      if contact.Some? {
        links := links + {(deal, contact.value)};
      }
      next := next + 1;
    }

    method AddIdentity(key: IdentityKey, contact: Id) returns (ok: bool)
      modifies this`identities
      ensures var r := WithIdentity(old(Contents()), key, contact);
        ok == r.Ok? && Contents() == if ok then r.value else old(Contents())
    {
      ok := !exists i :: i in identities && i.key == key;
      if ok {
        identities := identities + [Identity(key, contact)];
      }
    }

    // On an error the transaction is undone by the caller.
    method ResolveSender(text: Text, d: Delivery) returns (who: Match, error: Option<Error>)
      modifies this
      ensures var r := WithSender(text, old(Contents()), d);
        if r.Err? then error == Some(r.error) else error == None && (Contents(), who) == r.value
    {
      who := One(IdentityMatch(Contents(), KeyOf(d)));
      if who.contact.Some? || who.ambiguous {
        return who, None;
      }
      who := AddressFallback(text, Contents(), d);
      if who.ambiguous {
        return who, None;
      }
      var created := who.contact.None?;
      if created {
        who := Match(Some(next), false);
        contacts := contacts[next := Contact(if d.provider == "email" then Some(d.sender) else None, false)];
        next := next + 1;
      }
      var ok := AddIdentity(KeyOf(d), who.contact.value);
      if !ok {
        return who, Some(DuplicateIdentity);
      }
      if created && d.provider == "email" {
        var address := text.normalize(d.sender);
        if address.None? {
          return who, Some(InvalidAddress);
        }
        points := points + {(who.contact.value, address.value)};
      }
      return who, None;
    }

    method OpenConversationDeal(k: Id, route: Route, now: int) returns (deal: Id)
      requires k in conversations
      modifies this
      ensures Contents() == WithOpenDeal(old(Contents()), k, route, now)
      ensures k in conversations && deal == conversations[k].deal
    {
      var c := conversations[k];
      if OpenLive(Contents(), c.deal) {
        return c.deal;
      }
      deal := CreateDeal(route, c.contact, now);
      conversations := conversations[k := c.(deal := deal, version := c.version + 1)];
    }

    method Store(k: Id, d: Delivery, route: Route)
      requires k in conversations
      modifies this
      ensures Contents() == Stored(old(Contents()), k, d, route)
    {
      var deal := OpenConversationDeal(k, route, d.now);
      var reply := if d.replyTo.Some? && HasMessage(Contents(), k, d.replyTo.value) then d.replyTo else None;
      messages := messages + [Message(k, d.message, reply, d.occurredAt)];
      var c := conversations[k];
      conversations := conversations[k := c.(lastMessageAt := d.occurredAt, version := c.version + 1)];
      deals := deals[deal := deals[deal].(lastActivity := d.occurredAt, version := deals[deal].version + 1)];
    }

    method StartThread(text: Text, d: Delivery, route: Route) returns (k: Id, error: Option<Error>)
      modifies this
      ensures var r := WithThread(text, old(Contents()), d, route);
        if r.Err? then error == Some(r.error) else error == None && (Contents(), k) == r.value
    {
      var who;
      who, error := ResolveSender(text, d);
      k := 0;
      if error.Some? {
        return;
      }
      hide WithSender;
      var found := FindOpenDeal(Contents(), who.contact, route.pipeline);
      hide FindOpenDeal;
      var deal;
      if found.Some? {
        deal := found.value;
      } else {
        deal := CreateDeal(route, who.contact, d.now);
      }
      k := next;
      conversations := conversations[k := Conversation(d.connection, d.thread, who.contact, deal,
                                                       if who.ambiguous then ReviewNeeded else Active, d.occurredAt, 1)];
      next := next + 1;
    }

    // _route_channel_message in its transaction
    method Deliver(text: Text, d: Delivery) returns (error: Option<Error>)
      requires OneThread(Contents())
      modifies this
      ensures var r := Routed(text, old(Contents()), d);
        if r.Err? then error == Some(r.error) && Contents() == old(Contents()) else error == None && Contents() == r.value
    {
      hide Stored, WithThread, RouteOf, HasMessage, FindThread, Reopened;
      ghost var was := Contents();
      var before := Contents();
      var route := RouteOf(Contents(), d.connection);
      if route.Err? {
        return Some(route.error);
      }
      if exists k :: k in conversations && OfThread(Contents(), k, d.connection, d.thread) {
        var k :| k in conversations && OfThread(Contents(), k, d.connection, d.thread);
        ThreadFound(was, k, d.connection, d.thread);
        if HasMessage(Contents(), k, d.message) {
          return None;
        }
        Reopen(k);
        Store(k, d, route.value);
        return None;
      }
      ThreadMissing(was, d.connection, d.thread);
      var k;
      k, error := StartThread(text, d, route.value);
      if error.Some? {
        Restore(before);
        return;
      }
      ThreadStarted(text, was, d, route.value);
      Store(k, d, route.value);
    }

    method Reopen(k: Id)
      requires k in conversations
      modifies this
      ensures Contents() == Reopened(old(Contents()), k) && k in conversations
    {
      var c := conversations[k];
      if c.status == Closed {
        conversations := conversations[k := c.(status := if c.contact.Some? then Active else ReviewNeeded, version := c.version + 1)];
      }
    }

    // The rollback of a transaction.
    method Restore(before: Db)
      modifies this
      ensures Contents() == before
    {
      stages, connections, contacts, points := before.stages, before.connections, before.contacts, before.points;
      identities, deals, links := before.identities, before.deals, before.links;
      conversations, messages, next := before.conversations, before.messages, before.next;
    }
  }

  lemma ThreadFound(db: Db, k: Id, connection: Id, thread: string)
    requires OneThread(db) && OfThread(db, k, connection, thread)
    ensures FindThread(db, connection, thread) == Some(k)
  {
  }

  lemma ThreadMissing(db: Db, connection: Id, thread: string)
    requires forall k :: k in db.conversations ==> !OfThread(db, k, connection, thread)
    ensures FindThread(db, connection, thread) == None
  {
  }

  lemma ThreadStarted(text: Text, db: Db, d: Delivery, route: Route)
    ensures var r := WithThread(text, db, d, route);
      r.Ok? ==> OfThread(r.value.0, r.value.1, d.connection, d.thread)
  {
    hide WithSender, FindOpenDeal;
  }

  // ----- the steps of a delivery keep the invariant -----

  // Only contacts, points and identities may differ.
  ghost predicate OnlyContacts(s: Db, t: Db) {
    && t.stages == s.stages && t.connections == s.connections && t.deals == s.deals && t.links == s.links
    && t.conversations == s.conversations && t.messages == s.messages && s.next <= t.next
  }

  // Since identities belong to live contacts, one that is not matched is not
  // there: the unique key cannot be violated.
  lemma NoMatchNoIdentity(db: Db, key: IdentityKey)
    requires IdentitiesOk(db)
    ensures !One(IdentityMatch(db, key)).ambiguous
    ensures One(IdentityMatch(db, key)).contact.None? ==> forall i :: i in db.identities ==> i.key != key
  {
    var ids := IdentityMatch(db, key);
    if i :| i in db.identities && i.key == key {
      assert i.contact in ids;
      forall c | c in ids ensures c == i.contact {
        var j :| j in db.identities && j.key == key && j.contact == c;
        SameIdentity(db, i, j);
      }
      assert ids == {i.contact};
    } else {
      assert ids == {};
    }
  }

  lemma SameIdentity(db: Db, i: Identity, j: Identity)
    requires IdentitiesOk(db) && i in db.identities && j in db.identities && i.key == j.key
    ensures i == j
  {
    var m :| 0 <= m < |db.identities| && db.identities[m] == i;
    var n :| 0 <= n < |db.identities| && db.identities[n] == j;
  }

  lemma IdentityAdded(db: Db, key: IdentityKey, contact: Id)
    requires IdentitiesOk(db) && Live(db, contact) && forall i :: i in db.identities ==> i.key != key
    ensures var r := WithIdentity(db, key, contact); r.Ok? && IdentitiesOk(r.value) && r.value == db.(identities := r.value.identities)
  {
    var t := db.(identities := db.identities + [Identity(key, contact)]);
    forall i, j | 0 <= i < j < |t.identities| ensures t.identities[i].key != t.identities[j].key {
      assert t.identities[i] == db.identities[i] && db.identities[i] in db.identities;
      assert j < |db.identities| ==> t.identities[j] == db.identities[j];
    }
  }

  lemma FallbackLive(text: Text, db: Db, d: Delivery)
    ensures var m := AddressFallback(text, db, d); (m.contact.Some? ==> Live(db, m.contact.value)) && (m.ambiguous ==> m.contact.None?)
  {
  }

  lemma KnownLive(db: Db, key: IdentityKey)
    ensures var m := One(IdentityMatch(db, key)); m.contact.Some? ==> Live(db, m.contact.value)
  {
  }

  lemma SenderKept(text: Text, db: Db, d: Delivery)
    requires Inv(db)
    ensures var r := WithSender(text, db, d);
      && r != Err(DuplicateIdentity)
      && (r.Ok? ==>
            && OnlyContacts(db, r.value.0) && Inv(r.value.0)
            && (r.value.1.contact.Some? ==> Live(r.value.0, r.value.1.contact.value))
            && (r.value.1.ambiguous ==> r.value.1.contact.None?))
  {
    hide One, IdentityMatch, AddressFallback, WithIdentity, OneThread, OneMessage, IdentitiesOk, IdsOk, Live;
    var key := KeyOf(d);
    NoMatchNoIdentity(db, key);
    KnownLive(db, key);
    FallbackLive(text, db, d);
    var known, fallback := One(IdentityMatch(db, key)), AddressFallback(text, db, d);
    if known.contact.None? && fallback.contact.Some? {
      FallbackKept(db, fallback.contact.value, key);
    } else if known.contact.None? && !fallback.ambiguous {
      NewContactKept(db, Contact(if d.provider == "email" then Some(d.sender) else None, false), key);
    }
  }

  lemma FallbackKept(db: Db, contact: Id, key: IdentityKey)
    requires Inv(db) && Live(db, contact) && forall i :: i in db.identities ==> i.key != key
    ensures var r := WithIdentity(db, key, contact); r.Ok? && OnlyContacts(db, r.value) && Inv(r.value) && Live(r.value, contact)
  {
    hide WithIdentity, OneThread, OneMessage;
    IdentityAdded(db, key, contact);
    ContactsKept(db, WithIdentity(db, key, contact).value);
  }

  // A sender is remembered: asking again gives the same contact and changes nothing.
  lemma SenderRemembered(text: Text, db: Db, d: Delivery)
    requires Inv(db) && WithSender(text, db, d).Ok? && WithSender(text, db, d).value.1.contact.Some?
    ensures var (t, who) := WithSender(text, db, d).value;
      && Identity(KeyOf(d), who.contact.value) in t.identities
      && WithSender(text, t, d) == Ok((t, who))
  {
    SenderKept(text, db, d);
    var (t, who) := WithSender(text, db, d).value;
    SenderIdentity(text, db, d);
    hide Inv, WithIdentity, AddressFallback;
    KnownContact(t, KeyOf(d), who.contact.value);
    assert One(IdentityMatch(t, KeyOf(d))) == Match(who.contact, false);
    assert who == Match(who.contact, false);
  }

  lemma SenderIdentity(text: Text, db: Db, d: Delivery)
    requires IdentitiesOk(db) && WithSender(text, db, d).Ok? && WithSender(text, db, d).value.1.contact.Some?
    ensures var (t, who) := WithSender(text, db, d).value; Identity(KeyOf(d), who.contact.value) in t.identities && !who.ambiguous
  {
    var ids := IdentityMatch(db, KeyOf(d));
    var known := One(ids);
    hide AddressFallback;
    FallbackUnambiguous(text, db, d);
    if known.contact.Some? {
      var i :| i in db.identities && i.key == KeyOf(d) && i.contact == known.contact.value;
      assert i == Identity(KeyOf(d), known.contact.value);
    }
  }

  lemma FallbackUnambiguous(text: Text, db: Db, d: Delivery)
    ensures var m := AddressFallback(text, db, d); m.contact.Some? ==> !m.ambiguous
  {
  }

  lemma KnownContact(db: Db, key: IdentityKey, contact: Id)
    requires IdentitiesOk(db) && Identity(key, contact) in db.identities
    ensures IdentityMatch(db, key) == {contact}
  {
    var ids := IdentityMatch(db, key);
    assert contact in ids by {
      assert Identity(key, contact) in db.identities && Live(db, Identity(key, contact).contact);
    }
    forall c | c in ids ensures c == contact {
      var j :| j in db.identities && j.key == key && j.contact == c;
      SameIdentity(db, Identity(key, contact), j);
    }
  }

  lemma ContactsKept(s: Db, t: Db)
    requires Inv(s) && OnlyContacts(s, t) && IdentitiesOk(t) && forall k :: k in t.contacts ==> k < t.next
    ensures Inv(t)
  {
  }

  lemma NewContactKept(db: Db, contact: Contact, key: IdentityKey)
    requires Inv(db) && !contact.deleted && forall i :: i in db.identities ==> i.key != key
    ensures var r := WithIdentity(db.(contacts := db.contacts[db.next := contact], next := db.next + 1), key, db.next);
      && r.Ok? && OnlyContacts(db, r.value) && Inv(r.value) && Live(r.value, db.next)
      && forall points :: Inv(r.value.(points := points)) && Live(r.value.(points := points), db.next)
  {
    var made := db.(contacts := db.contacts[db.next := contact], next := db.next + 1);
    assert forall i :: i in db.identities ==> Live(made, i.contact);
    IdentityAdded(made, key, db.next);
    hide WithIdentity, OneThread, OneMessage;
    var t := WithIdentity(made, key, db.next).value;
    ContactsKept(db, t);
    forall points ensures Inv(t.(points := points)) && Live(t.(points := points), db.next) {
      ContactsKept(db, t.(points := points));
    }
  }

  // The deal that is found is open, and is only missed when there is none.
  lemma FoundIsOpen(db: Db, contact: Option<Id>, pipeline: Id)
    ensures var found := FindOpenDeal(db, contact, pipeline);
      && (found.Some? ==> found.value in db.deals && OpenLive(db, found.value))
      && (found.None? <==> contact.None? || OpenDeals(db, contact.value, pipeline) == {})
  {
    if contact.Some? {
      var ids := OpenDeals(db, contact.value, pipeline);
      ActivityIsStrict(db, ids);
      RankedSorts(ids, ByActivity(db));
      hide StrictOrder, Sorted;
      if ids != {} {
        var order := Ranked(ids, ByActivity(db));
        hide Ranked;
        assert order[0] in Elements(order);
      }
    }
  }

  lemma DealKept(db: Db, route: Route, contact: Option<Id>, now: int)
    requires Inv(db)
    ensures var t := WithDeal(db, route, contact, now);
      && Inv(t) && Onward(db, t) && t.conversations == db.conversations && t.messages == db.messages && t.stages == db.stages
      && db.next !in db.deals && t.deals.Keys == db.deals.Keys + {db.next}
      && (OpenLive(t, db.next) <==> route.stage in db.stages && db.stages[route.stage].isOpen)
      && (forall deal :: deal in db.deals ==> (OpenLive(t, deal) <==> OpenLive(db, deal)))
  {
  }

  lemma ConversationAdded(db: Db, c: Conversation)
    requires Inv(db) && c.deal in db.deals && forall k :: !OfThread(db, k, c.connection, c.thread)
    ensures var t := SetConversation(db, db.next, c).(next := db.next + 1);
      Inv(t) && Onward(db, t) && OfThread(t, db.next, c.connection, c.thread) && forall message :: !HasMessage(t, db.next, message)
  {
    var t := SetConversation(db, db.next, c).(next := db.next + 1);
    forall j, k | j in t.conversations && k in t.conversations
      && t.conversations[j].connection == t.conversations[k].connection && t.conversations[j].thread == t.conversations[k].thread
      ensures j == k
    {
      assert !OfThread(db, j, c.connection, c.thread) && !OfThread(db, k, c.connection, c.thread);
    }
    hide IdentitiesOk;
    assert IdentitiesOk(t) by {
      SameContacts(db, t);
    }
  }

  lemma SameContacts(s: Db, t: Db)
    requires IdentitiesOk(s) && t.contacts == s.contacts && t.identities == s.identities
    ensures IdentitiesOk(t)
  {
  }

  // Writing over a conversation keeps its thread.
  lemma ConversationChanged(db: Db, k: Id, c: Conversation)
    requires Inv(db) && k in db.conversations && c.deal in db.deals
    requires c.connection == db.conversations[k].connection && c.thread == db.conversations[k].thread
    ensures Inv(SetConversation(db, k, c)) && Onward(db, SetConversation(db, k, c))
  {
    SameContacts(db, SetConversation(db, k, c));
    hide IdentitiesOk, OneMessage;
    assert OneMessage(SetConversation(db, k, c)) by {
      SameMessages(db, SetConversation(db, k, c));
    }
  }

  lemma SameMessages(s: Db, t: Db)
    requires OneMessage(s) && t.messages == s.messages
    ensures OneMessage(t)
  {
  }

  lemma OnwardTwice(s: Db, t: Db, u: Db)
    requires Onward(s, t) && Onward(t, u)
    ensures Onward(s, u)
  {
  }

  // What the first message of a thread sets up.
  lemma ThreadKept(text: Text, db: Db, d: Delivery, route: Route)
    requires Inv(db) && FindThread(db, d.connection, d.thread).None?
    ensures var r := WithThread(text, db, d, route);
      && r != Err(DuplicateIdentity)
      && (r.Ok? ==>
            var (t, k) := r.value;
            && Inv(t) && Onward(db, t) && OfThread(t, k, d.connection, d.thread)
            && (forall message :: !HasMessage(t, k, message))
            && t.stages == db.stages && db.deals.Keys <= t.deals.Keys)
  {
    hide FindOpenDeal, WithSender;
    SenderKept(text, db, d);
    var sender := WithSender(text, db, d);
    if sender.Ok? {
      var (known, who) := sender.value;
      FoundIsOpen(known, who.contact, route.pipeline);
      DealKept(known, route, who.contact, d.now);
      var found := FindOpenDeal(known, who.contact, route.pipeline);
      var dealt := if found.Some? then known else WithDeal(known, route, who.contact, d.now);
      var deal := if found.Some? then found.value else known.next;
      var c := Conversation(d.connection, d.thread, who.contact, deal, if who.ambiguous then ReviewNeeded else Active, d.occurredAt, 1);
      assert Onward(db, known);
      assert Inv(dealt) && Onward(known, dealt) && deal in dealt.deals;
      OnwardTwice(db, known, dealt);
      assert WithThread(text, db, d, route) == Ok((SetConversation(dealt, dealt.next, c).(next := dealt.next + 1), dealt.next));
      assert dealt.conversations == db.conversations;
      NoThread(db, dealt, d.connection, d.thread);
      hide Inv, Onward, WithThread, WithDeal, SetConversation;
      ConversationAdded(dealt, c);
      OnwardTwice(db, dealt, SetConversation(dealt, dealt.next, c).(next := dealt.next + 1));
    }
  }

  lemma NoThread(db: Db, t: Db, connection: Id, thread: string)
    requires FindThread(db, connection, thread).None? && t.conversations == db.conversations
    ensures forall k :: !OfThread(t, k, connection, thread)
  {
    forall k ensures !OfThread(t, k, connection, thread) {
      assert OfThread(t, k, connection, thread) <==> OfThread(db, k, connection, thread);
    }
  }

  lemma OpenDealKept(db: Db, k: Id, route: Route, now: int)
    requires Inv(db) && k in db.conversations
    ensures var t := WithOpenDeal(db, k, route, now);
      && Inv(t) && Onward(db, t) && t.messages == db.messages && t.stages == db.stages && k in t.conversations
      && t.deals.Keys == db.deals.Keys + (if OpenLive(db, db.conversations[k].deal) then {} else {db.next})
      && (OpenLive(t, t.conversations[k].deal)
          <==> OpenLive(db, db.conversations[k].deal) || (route.stage in db.stages && db.stages[route.stage].isOpen))
  {
    hide WithDeal, Inv;
    var c := db.conversations[k];
    if !OpenLive(db, c.deal) {
      DealKept(db, route, c.contact, now);
      var dealt := WithDeal(db, route, c.contact, now);
      var c' := c.(deal := db.next, version := c.version + 1);
      ConversationChanged(dealt, k, c');
      OnwardTwice(db, dealt, SetConversation(dealt, k, c'));
    } else {
      assert db.deals.Keys + {} == db.deals.Keys;
    }
  }

  lemma MessageKept(db: Db, k: Id, d: Delivery)
    requires Inv(db) && k in db.conversations && !HasMessage(db, k, d.message)
    ensures var t := WithMessage(db, k, d);
      && Inv(t) && Onward(db, t) && HasMessage(t, k, d.message) && |t.messages| == |db.messages| + 1
      && t.stages == db.stages && t.deals.Keys == db.deals.Keys && k in t.conversations
      && t.conversations[k].deal == db.conversations[k].deal
      && (forall deal :: OpenLive(t, deal) <==> OpenLive(db, deal))
  {
    var c := db.conversations[k];
    var m := SetConversation(db, k, c.(lastMessageAt := d.occurredAt, version := c.version + 1));
    ConversationChanged(db, k, c.(lastMessageAt := d.occurredAt, version := c.version + 1));
    var t := WithMessage(db, k, d);
    SameContacts(m, t);
    assert t.messages[|db.messages|] in t.messages;
    forall i, j | 0 <= i < j < |t.messages|
      ensures t.messages[i].conversation != t.messages[j].conversation || t.messages[i].provider != t.messages[j].provider
    {
      assert t.messages[i] == db.messages[i] && db.messages[i] in db.messages;
      assert j < |db.messages| ==> t.messages[j] == db.messages[j];
    }
    hide IdentitiesOk, HasMessage;
  }

  // Storing a new message: the conversation ends on an open, live deal exactly
  // if it was on one or the default stage is open, and otherwise gets a new deal.
  lemma StoredKept(db: Db, k: Id, d: Delivery, route: Route)
    requires Inv(db) && k in db.conversations && !HasMessage(db, k, d.message)
    ensures var t := Stored(db, k, d, route);
      && Inv(t) && Onward(db, t) && HasMessage(t, k, d.message) && |t.messages| == |db.messages| + 1
      && t.deals.Keys == db.deals.Keys + (if OpenLive(db, db.conversations[k].deal) then {} else {db.next})
      && k in t.conversations
      && (OpenLive(t, t.conversations[k].deal)
          <==> OpenLive(db, db.conversations[k].deal) || (route.stage in db.stages && db.stages[route.stage].isOpen))
  {
    var middle := WithOpenDeal(db, k, route, d.now);
    OpenDealKept(db, k, route, d.now);
    assert HasMessage(middle, k, d.message) <==> HasMessage(db, k, d.message);
    hide WithOpenDeal, HasMessage, OpenLive;
    MessageKept(middle, k, d);
    OnwardTwice(db, middle, Stored(db, k, d, route));
    hide WithMessage, Inv, Onward;
  }

  lemma ReopenKept(db: Db, k: Id)
    requires Inv(db) && k in db.conversations
    ensures var t := Reopened(db, k);
      && Inv(t) && Onward(db, t) && t == db.(conversations := t.conversations) && t.conversations.Keys == db.conversations.Keys
      && t.conversations[k].deal == db.conversations[k].deal && t.conversations[k].status != Closed
      && forall message :: HasMessage(t, k, message) <==> HasMessage(db, k, message)
  {
    var c := db.conversations[k];
    if c.status == Closed {
      ConversationChanged(db, k, c.(status := if c.contact.Some? then Active else ReviewNeeded, version := c.version + 1));
    }
  }

  // The message has been stored in the conversation of its thread.
  ghost predicate Received(db: Db, d: Delivery) {
    exists k :: OfThread(db, k, d.connection, d.thread) && HasMessage(db, k, d.message)
  }

  lemma FoundThread(db: Db, connection: Id, thread: string)
    ensures FindThread(db, connection, thread).Some? ==> OfThread(db, FindThread(db, connection, thread).value, connection, thread)
  {
  }

  // A delivery never trips over the identity key, keeps the invariant, takes no
  // thread or message back, and its message is there afterwards.
  lemma RoutedKept(text: Text, db: Db, d: Delivery)
    requires Inv(db)
    ensures var r := Routed(text, db, d);
      && r != Err(DuplicateIdentity)
      && (r.Ok? ==> Inv(r.value) && Onward(db, r.value) && Received(r.value, d))
  {
    var route, k := RouteOf(db, d.connection), FindThread(db, d.connection, d.thread);
    FoundThread(db, d.connection, d.thread);
    hide RouteOf, FindThread, Stored, Reopened, WithThread, HasMessage, Inv;
    RouteErrors(db, d.connection);
    if route.Ok? {
      if k.Some? {
        if !HasMessage(db, k.value, d.message) {
          ReopenKept(db, k.value);
          var reopened := Reopened(db, k.value);
          StoredKept(reopened, k.value, d, route.value);
          OnwardTwice(db, reopened, Stored(reopened, k.value, d, route.value));
          assert OfThread(Stored(reopened, k.value, d, route.value), k.value, d.connection, d.thread);
        }
      } else {
        ThreadKept(text, db, d, route.value);
        var thread := WithThread(text, db, d, route.value);
        if thread.Ok? {
          var (t, k0) := thread.value;
          StoredKept(t, k0, d, route.value);
          OnwardTwice(db, t, Stored(t, k0, d, route.value));
          assert OfThread(Stored(t, k0, d, route.value), k0, d.connection, d.thread);
        }
      }
    }
  }

  lemma RouteErrors(db: Db, connection: Id)
    ensures RouteOf(db, connection) != Err(DuplicateIdentity)
    ensures var r := RouteOf(db, connection); r.Ok? ==> r.value.stage in db.stages
  {
  }

  // A repeated delivery changes nothing at all.
  lemma ReplayChangesNothing(text: Text, db: Db, d: Delivery)
    requires OneThread(db) && Received(db, d)
    ensures var r := Routed(text, db, d); r.Ok? ==> r.value == db
  {
    var k :| OfThread(db, k, d.connection, d.thread) && HasMessage(db, k, d.message);
    ThreadFound(db, k, d.connection, d.thread);
    hide FindThread, RouteOf, Stored, WithThread, Reopened;
  }

  // The conversation that a delivery of a new message ends in.
  ghost predicate InOpenDeal(db: Db, d: Delivery) {
    exists k :: OfThread(db, k, d.connection, d.thread) && OpenLive(db, db.conversations[k].deal)
  }

  // A new message finds an open deal: its conversation's, or for a new thread
  // one of the sender's in the default pipeline.
  ghost predicate FindsDeal(text: Text, db: Db, d: Delivery, route: Route) {
    var k := FindThread(db, d.connection, d.thread);
    if k.Some? then OpenLive(db, db.conversations[k.value].deal)
    else
      var sender := WithSender(text, db, d);
      sender.Ok? && FindOpenDeal(sender.value.0, sender.value.1.contact, route.pipeline).Some?
  }

  // After every new message the conversation's deal is open and live exactly if
  // such a deal was found or the connection's default stage is open. Deals made:
  // none if one was found; otherwise one, but two for a new thread whose default
  // stage is not open.
  lemma NewMessageDeal(text: Text, db: Db, d: Delivery)
    requires Inv(db) && !Received(db, d) && Routed(text, db, d).Ok?
    ensures RouteOf(db, d.connection).Ok? && RouteOf(db, d.connection).value.stage in db.stages
    ensures var after, route := Routed(text, db, d).value, RouteOf(db, d.connection).value;
      var open, found := db.stages[route.stage].isOpen, FindsDeal(text, db, d, route);
      && |after.messages| == |db.messages| + 1
      && (InOpenDeal(after, d) <==> found || open)
      && |after.deals.Keys - db.deals.Keys|
         == (if found then 0 else if open || FindThread(db, d.connection, d.thread).Some? then 1 else 2)
  {
    hide RouteOf, FindThread, Stored, Reopened, WithThread, HasMessage, OpenLive, WithSender, FindOpenDeal, Inv, InOpenDeal;
    RouteErrors(db, d.connection);
    if FindThread(db, d.connection, d.thread).Some? {
      KnownThreadMessage(text, db, d);
    } else {
      NewThreadMessage(text, db, d);
    }
  }

  lemma KnownThreadMessage(text: Text, db: Db, d: Delivery)
    requires Inv(db) && !Received(db, d) && RouteOf(db, d.connection).Ok? && RouteOf(db, d.connection).value.stage in db.stages
    requires FindThread(db, d.connection, d.thread).Some?
    ensures var r, open := Routed(text, db, d), db.stages[RouteOf(db, d.connection).value.stage].isOpen;
      var found := FindsDeal(text, db, d, RouteOf(db, d.connection).value);
      && r.Ok? && |r.value.messages| == |db.messages| + 1 && (InOpenDeal(r.value, d) <==> found || open)
      && |r.value.deals.Keys - db.deals.Keys| == (if found then 0 else 1)
  {
    hide RouteOf, FindThread, Stored, Reopened, WithThread, HasMessage, OpenLive, WithSender, FindOpenDeal, Inv, InOpenDeal;
    var route, k := RouteOf(db, d.connection).value, FindThread(db, d.connection, d.thread).value;
    FoundThread(db, d.connection, d.thread);
    KnownThreadDeal(db, k, d, route);
    ReopenKept(db, k);
    OnlyThread(Stored(Reopened(db, k), k, d, route), k, d);
  }

  lemma NewThreadMessage(text: Text, db: Db, d: Delivery)
    requires Inv(db) && RouteOf(db, d.connection).Ok? && RouteOf(db, d.connection).value.stage in db.stages
    requires FindThread(db, d.connection, d.thread).None? && Routed(text, db, d).Ok?
    ensures var after, open := Routed(text, db, d).value, db.stages[RouteOf(db, d.connection).value.stage].isOpen;
      var found := FindsDeal(text, db, d, RouteOf(db, d.connection).value);
      && |after.messages| == |db.messages| + 1 && (InOpenDeal(after, d) <==> found || open)
      && |after.deals.Keys - db.deals.Keys| == (if found then 0 else if open then 1 else 2)
  {
    hide RouteOf, FindThread, Stored, WithThread, OpenLive, Inv, InOpenDeal, FindsDeal;
    var route := RouteOf(db, d.connection).value;
    NewThreadDeal(text, db, d, route);
    ThreadStarted(text, db, d, route);
    var (t, k) := WithThread(text, db, d, route).value;
    OnlyThread(Stored(t, k, d, route), k, d);
  }

  lemma OnlyThread(db: Db, k: Id, d: Delivery)
    requires Inv(db) && OfThread(db, k, d.connection, d.thread)
    ensures InOpenDeal(db, d) <==> OpenLive(db, db.conversations[k].deal)
  {
    hide OpenLive;
  }

  lemma NewKeys(old': set<Id>, next: Id, more: set<Id>)
    requires next !in old' && (more == {} || more == {next})
    ensures (old' + more) - old' == more && |more| == if more == {} then 0 else 1
  {
  }

  lemma KnownThreadDeal(db: Db, k: Id, d: Delivery, route: Route)
    requires Inv(db) && OfThread(db, k, d.connection, d.thread) && !HasMessage(db, k, d.message) && route.stage in db.stages
    ensures var after := Stored(Reopened(db, k), k, d, route);
      && Inv(after) && OfThread(after, k, d.connection, d.thread) && |after.messages| == |db.messages| + 1
      && (OpenLive(after, after.conversations[k].deal) <==> OpenLive(db, db.conversations[k].deal) || db.stages[route.stage].isOpen)
      && |after.deals.Keys - db.deals.Keys| == if OpenLive(db, db.conversations[k].deal) then 0 else 1
  {
    ReopenKept(db, k);
    var reopened := Reopened(db, k);
    StoredKept(reopened, k, d, route);
    assert OpenLive(reopened, db.conversations[k].deal) <==> OpenLive(db, db.conversations[k].deal);
    assert db.next !in db.deals;
    NewKeys(db.deals.Keys, db.next, if OpenLive(db, db.conversations[k].deal) then {} else {db.next});
    hide Stored, Reopened, OpenLive, HasMessage, Inv;
  }

  lemma NewThreadDeal(text: Text, db: Db, d: Delivery, route: Route)
    requires Inv(db) && FindThread(db, d.connection, d.thread).None? && WithThread(text, db, d, route).Ok? && route.stage in db.stages
    ensures var (t, k) := WithThread(text, db, d, route).value; var after := Stored(t, k, d, route);
      var found := FindsDeal(text, db, d, route);
      && Inv(after) && OfThread(after, k, d.connection, d.thread) && |after.messages| == |db.messages| + 1
      && (OpenLive(after, after.conversations[k].deal) <==> found || db.stages[route.stage].isOpen)
      && |after.deals.Keys - db.deals.Keys| == if found then 0 else if db.stages[route.stage].isOpen then 1 else 2
  {
    hide Stored, WithThread, OpenLive, HasMessage, FindsDeal;
    ThreadKept(text, db, d, route);
    ThreadDeal(text, db, d, route);
    var (t, k) := WithThread(text, db, d, route).value;
    StoredKept(t, k, d, route);
    assert t.next !in t.deals;
    hide Inv;
    if FindsDeal(text, db, d, route) {
      OneMore(db.deals.Keys, t.next);
    } else {
      var deal :| deal !in db.deals && deal < t.next && t.deals.Keys == db.deals.Keys + {deal};
      OneMore(db.deals.Keys, deal);
      TwoMore(db.deals.Keys, deal, t.next);
    }
  }

  lemma OneMore(base: set<Id>, a: Id)
    requires a !in base
    ensures |(base + {a}) - base| == 1 && |(base + {}) - base| == 0 && |base - base| == 0
  {
    assert (base + {a}) - base == {a};
  }

  lemma TwoMore(base: set<Id>, a: Id, b: Id)
    requires a !in base && b !in base && a != b
    ensures |(base + {a} + {b}) - base| == 2 && |(base + {a} + {}) - base| == 1
  {
    assert (base + {a} + {b}) - base == {a, b};
    assert (base + {a} + {}) - base == {a};
  }

  // What the set-up of a thread says about its deal.
  lemma ThreadDeal(text: Text, db: Db, d: Delivery, route: Route)
    requires Inv(db) && FindThread(db, d.connection, d.thread).None? && WithThread(text, db, d, route).Ok? && route.stage in db.stages
    ensures var (t, k) := WithThread(text, db, d, route).value;
      var found := FindsDeal(text, db, d, route);
      && k in t.conversations && t.messages == db.messages
      && (OpenLive(t, t.conversations[k].deal) <==> found || db.stages[route.stage].isOpen)
      && (if found then t.deals.Keys == db.deals.Keys
          else exists deal :: deal !in db.deals && deal < t.next && t.deals.Keys == db.deals.Keys + {deal})
  {
    hide FindOpenDeal, WithSender, FindThread;
    SenderKept(text, db, d);
    var (known, who) := WithSender(text, db, d).value;
    FoundIsOpen(known, who.contact, route.pipeline);
    DealKept(known, route, who.contact, d.now);
    hide Inv;
  }

  // A connection whose default stage is not open: the first message of a new
  // sender makes two deals and leaves its conversation on one that is not open.
  lemma ClosedDefaultStage(text: Text) returns (db: Db, d: Delivery)
    ensures Inv(db) && Routed(text, db, d).Ok?
    ensures |Routed(text, db, d).value.deals.Keys - db.deals.Keys| == 2 && !InOpenDeal(Routed(text, db, d).value, d)
  {
    db := Db(map[1 := Stage(2, false)], map[3 := Connection(Some(2), Some(1), true)], map[], {}, [], map[], {}, map[], [], 4);
    d := Delivery(3, "telegram", "thread", "message", "sender", None, 10, 10);
    var route := Route(2, 1);
    assert RouteOf(db, 3) == Ok(route);
    ThreadMissing(db, 3, "thread");
    assert !Received(db, d);
    var known := StrangerKnown(text, db, d);
    FoundIsOpen(known, Some(4), 2);
    assert OpenDeals(known, 4, 2) == {};
    hide RouteOf, FindThread, WithSender, FindOpenDeal, Stored;
    assert FindOpenDeal(known, Some(4), 2) == None;
    assert WithThread(text, db, d, route).Ok?;
    assert !FindsDeal(text, db, d, route);
    hide WithThread, FindsDeal;
    NewMessageDeal(text, db, d);
  }

  lemma StrangerKnown(text: Text, db: Db, d: Delivery) returns (known: Db)
    requires db.identities == [] && db.deals == map[] && d.provider == "telegram"
    ensures known.deals == map[] && known.next == db.next + 1
    ensures WithSender(text, db, d) == Ok((known, Match(Some(db.next), false)))
  {
    assert IdentityMatch(db, KeyOf(d)) == {};
    assert AddressFallback(text, db, d) == Match(None, false);
    var made := db.(contacts := db.contacts[db.next := Contact(None, false)], next := db.next + 1);
    known := made.(identities := [Identity(KeyOf(d), db.next)]);
    assert [] + [Identity(KeyOf(d), db.next)] == [Identity(KeyOf(d), db.next)];
    assert WithIdentity(made, KeyOf(d), db.next) == Ok(known);
    hide WithIdentity, IdentityMatch, AddressFallback;
  }

  // ----- over every run -----

  datatype Op =
    | Deliver(delivery: Delivery)
    | DeleteContact(contact: Id)
    | AddContact(email: Option<string>, addresses: set<string>)
    | CloseConversation(conversation: Id)
    | MoveDeal(deal: Id, stage: Id)
    | DeleteDeal(deal: Id)

  // delete_contact, behind its checks: points and identities go with it
  function WithoutContact(db: Db, contact: Id): Db
    requires contact in db.contacts
  {
    db.(contacts := db.contacts[contact := db.contacts[contact].(deleted := true)],
        points := (set p | p in db.points && p.0 != contact),
        identities := Without(db.identities, contact))
  }

  function Without(identities: seq<Identity>, contact: Id): seq<Identity> {
    if identities == [] then []
    else if identities[0].contact == contact then Without(identities[1..], contact)
    else [identities[0]] + Without(identities[1..], contact)
  }

  ghost function Step(text: Text, db: Db, op: Op): Db {
    match op
    case Deliver(d) => var r := Routed(text, db, d); if r.Ok? then r.value else db
    case DeleteContact(c) => if Live(db, c) then WithoutContact(db, c) else db
    case AddContact(email, addresses) =>
      db.(contacts := db.contacts[db.next := Contact(email, false)],
          points := db.points + (set a | a in addresses :: (db.next, a)), next := db.next + 1)
    case CloseConversation(k) =>
      if k in db.conversations then
        SetConversation(db, k, db.conversations[k].(status := Closed, version := db.conversations[k].version + 1))
      else db
    case MoveDeal(deal, stage) =>
      if deal in db.deals then db.(deals := db.deals[deal := db.deals[deal].(stage := stage, version := db.deals[deal].version + 1)]) else db
    case DeleteDeal(deal) =>
      if deal in db.deals then db.(deals := db.deals[deal := db.deals[deal].(deleted := true, version := db.deals[deal].version + 1)]) else db
  }

  ghost function Run(text: Text, start: Db, ops: seq<Op>): Db {
    if ops == [] then start else Step(text, Run(text, start, ops[..|ops| - 1]), ops[|ops| - 1])
  }

  lemma {:induction false} WithoutFacts(identities: seq<Identity>, contact: Id)
    requires forall i, j :: 0 <= i < j < |identities| ==> identities[i].key != identities[j].key
    ensures var rest := Without(identities, contact);
      && (forall i, j :: 0 <= i < j < |rest| ==> rest[i].key != rest[j].key)
      && (forall i :: i in rest <==> i in identities && i.contact != contact)
  {
    if identities != [] {
      WithoutFacts(identities[1..], contact);
      assert identities == [identities[0]] + identities[1..];
      var rest := Without(identities[1..], contact);
      forall i | 0 <= i < |rest| ensures rest[i].key != identities[0].key {
        assert rest[i] in identities[1..];
      }
    }
  }

  lemma DeleteContactKept(db: Db, contact: Id)
    requires Inv(db) && contact in db.contacts
    ensures Inv(WithoutContact(db, contact)) && Onward(db, WithoutContact(db, contact))
  {
    WithoutFacts(db.identities, contact);
    hide Without;
  }

  lemma StepKept(text: Text, db: Db, op: Op)
    requires Inv(db)
    ensures Inv(Step(text, db, op)) && Onward(db, Step(text, db, op))
  {
    hide Routed, WithoutContact, OneMessage, OneThread, Onward;
    Unmoved(db);
    match op {
      case Deliver(d) => RoutedKept(text, db, d);
      case DeleteContact(c) => if Live(db, c) { DeleteContactKept(db, c); }
      case CloseConversation(k) =>
        if k in db.conversations {
          ConversationChanged(db, k, db.conversations[k].(status := Closed, version := db.conversations[k].version + 1));
        }
      case _ => OtherStep(db, Step(text, db, op));
    }
  }

  lemma Unmoved(db: Db)
    ensures Onward(db, db)
  {
  }

  lemma OtherStep(s: Db, t: Db)
    requires Inv(s) && t.conversations == s.conversations && t.messages == s.messages && t.identities == s.identities
    requires t.deals.Keys == s.deals.Keys && s.next <= t.next
    requires forall k :: k in t.contacts ==> k < t.next
    requires forall k :: Live(s, k) ==> Live(t, k)
    ensures Inv(t) && Onward(s, t)
  {
  }

  // In every reachable state: one conversation for each thread, one message for
  // each provider id in it, and identities that are unique and of live contacts.
  lemma {:induction false} InvRun(text: Text, start: Db, ops: seq<Op>)
    requires Inv(start)
    ensures Inv(Run(text, start, ops))
  {
    if ops != [] {
      InvRun(text, start, ops[..|ops| - 1]);
      StepKept(text, Run(text, start, ops[..|ops| - 1]), ops[|ops| - 1]);
      hide Step, Inv;
    }
  }

  lemma {:induction false} ReceivedForGood(text: Text, start: Db, ops: seq<Op>, n: nat, d: Delivery)
    requires Inv(start) && n <= |ops| && Received(Run(text, start, ops[..n]), d)
    ensures Received(Run(text, start, ops), d)
    decreases |ops|
  {
    if n == |ops| {
      assert ops[..n] == ops;
    } else {
      var front := ops[..|ops| - 1];
      assert front[..n] == ops[..n];
      ReceivedForGood(text, start, front, n, d);
      InvRun(text, start, front);
      StepKept(text, Run(text, start, front), ops[|ops| - 1]);
      hide Step, Inv;
      StillReceived(Run(text, start, front), Step(text, Run(text, start, front), ops[|ops| - 1]), d);
    }
  }

  lemma StillReceived(s: Db, t: Db, d: Delivery)
    requires Onward(s, t) && Received(s, d)
    ensures Received(t, d)
  {
    var k :| OfThread(s, k, d.connection, d.thread) && HasMessage(s, k, d.message);
    var m :| m in s.messages && m.conversation == k && m.provider == d.message;
    var i :| 0 <= i < |s.messages| && s.messages[i] == m;
    assert t.messages[i] == m && m in t.messages;
    assert HasMessage(t, k, d.message) && OfThread(t, k, d.connection, d.thread);
  }

  // A delivery that went through once can be repeated at any later time, after
  // whatever else happened, without changing anything.
  lemma ReplaySafe(text: Text, start: Db, ops: seq<Op>, n: nat, again: Delivery)
    requires Inv(start) && n < |ops| && ops[n].Deliver?
    requires Routed(text, Run(text, start, ops[..n]), ops[n].delivery).Ok?
    requires again.connection == ops[n].delivery.connection && again.thread == ops[n].delivery.thread && again.message == ops[n].delivery.message
    ensures Step(text, Run(text, start, ops), Deliver(again)) == Run(text, start, ops)
  {
    var d, before := ops[n].delivery, Run(text, start, ops[..n]);
    InvRun(text, start, ops[..n]);
    RoutedKept(text, before, d);
    assert ops[..n + 1][..n] == ops[..n];
    assert Run(text, start, ops[..n + 1]) == Routed(text, before, d).value;
    hide Routed, Run;
    assert Received(Run(text, start, ops[..n + 1]), again);
    ReceivedForGood(text, start, ops, n + 1, again);
    InvRun(text, start, ops);
    ReplayChangesNothing(text, Run(text, start, ops), again);
  }
}
