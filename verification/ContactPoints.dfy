// The index of normalized contact points and the contacts it is derived from
// (identity.py, and the importers and routes that write contacts).
module ContactPoints {
  import opened Prelude

  type Id = nat

  datatype Kind = Email | Phone

  // What the model does not define: stripping white space, and the partial
  // normalization of emails and phones (None stands for the normalization error).
  datatype Text = Text(strip: string -> string, normalize: (Kind, string) -> Option<string>)

  // Both normalizers strip their input first and reject an empty one.
  ghost predicate Lawful(t: Text) {
    && (forall v :: t.strip(t.strip(v)) == t.strip(v))
    && t.strip("") == ""
    && (forall k, v :: t.normalize(k, t.strip(v)) == t.normalize(k, v))
    && (forall k :: t.normalize(k, "").None?)
  }

  datatype Contact = Contact(
    company: Option<Id>,
    assignee: Option<Id>,
    deleted: bool,
    primaryEmail: Option<string>,
    primaryPhone: Option<string>,
    emails: seq<string>,
    phones: seq<string>,
    version: nat)

  datatype Point = Point(kind: Kind, value: string, normalized: string, primary: bool)

  type Identity = (Kind, string)

  function Primary(c: Contact, k: Kind): Option<string> {
    if k == Email then c.primaryEmail else c.primaryPhone
  }

  function Listed(c: Contact, k: Kind): seq<string> {
    if k == Email then c.emails else c.phones
  }

  // All raw values of a kind: the primary one, if any, and the listed ones.
  function RawValues(c: Contact, k: Kind): seq<string> {
    (if Primary(c, k).Some? && Primary(c, k).value != "" then [Primary(c, k).value] else []) + Listed(c, k)
  }

  // What the index should say about a contact: the normalizations of its valid values.
  ghost function Identities(t: Text, c: Contact): set<Identity> {
    (set v | v in RawValues(c, Email) && t.normalize(Email, v).Some? :: (Email, t.normalize(Email, v).value))
    + (set v | v in RawValues(c, Phone) && t.normalize(Phone, v).Some? :: (Phone, t.normalize(Phone, v).value))
  }

  // Every value that is not blank can be normalized.
  ghost predicate AllValid(t: Text, c: Contact) {
    forall k, v :: v in RawValues(c, k) && t.strip(v) != "" ==> t.normalize(k, v).Some?
  }

  function PointIdentities(points: seq<Point>): set<Identity> {
    set p | p in points :: (p.kind, p.normalized)
  }

  // If a kind has rows, exactly one of them is primary.
  ghost predicate OnePrimary(points: seq<Point>, k: Kind) {
    (forall p :: p in points ==> p.kind != k) || exists i :: SolePrimary(points, k, i)
  }

  ghost predicate SolePrimary(points: seq<Point>, k: Kind, i: int) {
    && 0 <= i < |points| && points[i].kind == k && points[i].primary
    && forall j :: 0 <= j < |points| && points[j].kind == k && points[j].primary ==> j == i
  }

  ghost predicate OnePrimaryPerKind(points: seq<Point>) {
    OnePrimary(points, Email) && OnePrimary(points, Phone)
  }

  ghost predicate NoRepeats(points: seq<Point>) {
    forall i, j :: 0 <= i < j < |points| ==>
      (points[i].kind, points[i].normalized) != (points[j].kind, points[j].normalized)
  }

  // The index rows of one contact agree with the contact.
  ghost predicate Agrees(t: Text, c: Contact, points: seq<Point>) {
    if c.deleted then points == []
    else PointIdentities(points) == Identities(t, c) && NoRepeats(points) && OnePrimaryPerKind(points)
  }

  // ----- sync_contact_points: every value must normalize -----

  // _ordered_values: stripped, non-empty, first occurrence kept.
  function OrderedValues(t: Text, raw: seq<string>): seq<string> {
    if raw == [] then []
    else
      var before := OrderedValues(t, raw[..|raw| - 1]);
      var v := t.strip(raw[|raw| - 1]);
      if v == "" || v in before then before else before + [v]
  }

  // Rows for the first n values of a kind; the value at position 0 is primary.
  function PointsOf(t: Text, k: Kind, values: seq<string>): Option<seq<Point>> {
    if values == [] then Some([])
    else
      var at := |values| - 1;
      match PointsOf(t, k, values[..at])
      case None => None
      case Some(before) =>
        match t.normalize(k, values[at])
        case None => None
        case Some(n) =>
          if (k, n) in PointIdentities(before) then Some(before)
          else Some(before + [Point(k, values[at], n, at == 0)])
  }

  // The columns of the index; the database refuses a longer value.
  const POINT_WIDTH: nat := 512

  predicate PointsFit(rows: seq<Point>) {
    forall p :: p in rows ==> |p.value| <= POINT_WIDTH && |p.normalized| <= POINT_WIDTH
  }

  function Synced(t: Text, c: Contact): Option<seq<Point>> {
    match PointsOf(t, Email, OrderedValues(t, RawValues(c, Email)))
    case None => None
    case Some(emails) =>
      match PointsOf(t, Phone, OrderedValues(t, RawValues(c, Phone)))
      case None => None
      case Some(phones) => Some(emails + phones)
  }

  lemma {:induction false} OrderedValuesFacts(t: Text, raw: seq<string>)
    requires Lawful(t)
    ensures forall v :: v in OrderedValues(t, raw) <==> v != "" && exists r :: r in raw && t.strip(r) == v
  {
    if raw != [] {
      var front := raw[..|raw| - 1];
      OrderedValuesFacts(t, front);
      assert raw == front + [raw[|raw| - 1]];
    }
  }

  // Some value of the kind cannot be normalized.
  ghost predicate Unreadable(t: Text, k: Kind, values: seq<string>) {
    exists v :: v in values && t.normalize(k, v).None?
  }

  ghost predicate Yields(t: Text, k: Kind, values: seq<string>, n: string) {
    exists v :: v in values && t.normalize(k, v) == Some(n)
  }

  lemma LastValue(t: Text, k: Kind, values: seq<string>)
    requires values != []
    ensures var front, last := values[..|values| - 1], values[|values| - 1];
      && (Unreadable(t, k, values) <==> Unreadable(t, k, front) || t.normalize(k, last).None?)
      && forall n :: Yields(t, k, values, n) <==> Yields(t, k, front, n) || t.normalize(k, last) == Some(n)
  {
    var front, last := values[..|values| - 1], values[|values| - 1];
    assert values == front + [last] && last in values;
    assert forall v :: v in values <==> v in front || v == last;
    forall n ensures Yields(t, k, values, n) <==> Yields(t, k, front, n) || t.normalize(k, last) == Some(n) {
    }
  }

  // Rows of one kind: they carry exactly the normalized values, no value twice,
  // and the first row is the only primary one.
  lemma {:induction false} PointsOfFacts(t: Text, k: Kind, values: seq<string>)
    ensures PointsOf(t, k, values).None? <==> Unreadable(t, k, values)
    ensures PointsOf(t, k, values).Some? ==>
      var points := PointsOf(t, k, values).value;
      && (forall p :: p in points ==> p.kind == k)
      && (forall n :: (k, n) in PointIdentities(points) <==> Yields(t, k, values, n))
      && NoRepeats(points)
      && (points == [] <==> values == [])
      && (forall i :: 0 <= i < |points| ==> (points[i].primary <==> i == 0))
  {
    if values != [] {
      var at := |values| - 1;
      var front := values[..at];
      PointsOfFacts(t, k, front);
      LastValue(t, k, values);
      hide Unreadable, Yields;
      if PointsOf(t, k, values).Some? {
        var before := PointsOf(t, k, front).value;
        var n := t.normalize(k, values[at]).value;
        if (k, n) !in PointIdentities(before) {
          PointAdded(before, Point(k, values[at], n, at == 0));
        }
      }
    }
  }

  lemma PointAdded(before: seq<Point>, p: Point)
    requires NoRepeats(before) && (p.kind, p.normalized) !in PointIdentities(before)
    ensures NoRepeats(before + [p]) && PointIdentities(before + [p]) == PointIdentities(before) + {(p.kind, p.normalized)}
  {
    var points := before + [p];
    forall i | 0 <= i < |before| ensures (before[i].kind, before[i].normalized) != (p.kind, p.normalized) {
      assert before[i] in before;
    }
    assert points[|before|] in points;
    forall q | q in before ensures q in points {}
  }

  ghost function KindIdentities(t: Text, k: Kind, values: seq<string>): set<Identity> {
    set v | v in values && t.normalize(k, v).Some? :: (k, t.normalize(k, v).value)
  }

  // One kind of a contact, from raw values to rows.
  lemma SyncedKind(t: Text, k: Kind, raw: seq<string>)
    requires Lawful(t)
    ensures PointsOf(t, k, OrderedValues(t, raw)).None? <==>
      exists v :: v in raw && t.strip(v) != "" && t.normalize(k, v).None?
    ensures PointsOf(t, k, OrderedValues(t, raw)).Some? ==>
      PointIdentities(PointsOf(t, k, OrderedValues(t, raw)).value) == KindIdentities(t, k, raw)
  {
    var values := OrderedValues(t, raw);
    OrderedValuesFacts(t, raw);
    PointsOfFacts(t, k, values);
    if exists v :: v in raw && t.strip(v) != "" && t.normalize(k, v).None? {
      var v :| v in raw && t.strip(v) != "" && t.normalize(k, v).None?;
      assert t.strip(v) in values && t.normalize(k, t.strip(v)).None?;
    }
    if PointsOf(t, k, values).Some? {
      var points := PointsOf(t, k, values).value;
      forall id ensures id in PointIdentities(points) <==> id in KindIdentities(t, k, raw) {
        if id in PointIdentities(points) {
          var v :| v in values && t.normalize(k, v) == Some(id.1);
          var r :| r in raw && t.strip(r) == v;
          assert t.normalize(k, r) == Some(id.1);
        }
        if id in KindIdentities(t, k, raw) {
          var r :| r in raw && t.normalize(k, r).Some? && id == (k, t.normalize(k, r).value);
          assert t.normalize(k, t.strip(r)).Some?;
          assert t.strip(r) in values;
        }
      }
    }
  }

  // Concatenating the rows of the two kinds.
  lemma BothKinds(emails: seq<Point>, phones: seq<Point>)
    requires NoRepeats(emails) && NoRepeats(phones)
    requires forall p :: p in emails ==> p.kind == Email
    requires forall p :: p in phones ==> p.kind == Phone
    requires forall i :: 0 <= i < |emails| ==> (emails[i].primary <==> i == 0)
    requires forall i :: 0 <= i < |phones| ==> (phones[i].primary <==> i == 0)
    ensures NoRepeats(emails + phones) && OnePrimaryPerKind(emails + phones)
    ensures PointIdentities(emails + phones) == PointIdentities(emails) + PointIdentities(phones)
  {
    var points := emails + phones;
    forall i | 0 <= i < |points|
      ensures if i < |emails| then points[i].kind == Email else points[i].kind == Phone
      ensures points[i].primary <==> i == 0 || i == |emails|
    {
      assert i < |emails| ==> points[i] in emails;
      assert i >= |emails| ==> points[i] in phones && points[i] == phones[i - |emails|];
    }
    assert emails != [] ==> SolePrimary(points, Email, 0);
    assert phones != [] ==> SolePrimary(points, Phone, |emails|);
  }

  // The values of a contact can be indexed: they normalize, and the rows fit.
  ghost predicate Indexable(t: Text, c: Contact) {
    AllValid(t, c) && (Synced(t, c).Some? ==> PointsFit(Synced(t, c).value))
  }

  // sync_contact_points fails exactly when a stored value that is not blank
  // does not normalize; otherwise the new rows agree with the contact.
  lemma SyncedAgrees(t: Text, c: Contact)
    requires Lawful(t)
    ensures Synced(t, c).Some? <==> AllValid(t, c)
    ensures Synced(t, c).Some? && !c.deleted ==> Agrees(t, c, Synced(t, c).value)
    ensures Synced(t, c).Some? ==> PointIdentities(Synced(t, c).value) == Identities(t, c)
  {
    SyncedKind(t, Email, RawValues(c, Email));
    SyncedKind(t, Phone, RawValues(c, Phone));
    PointsOfFacts(t, Email, OrderedValues(t, RawValues(c, Email)));
    PointsOfFacts(t, Phone, OrderedValues(t, RawValues(c, Phone)));
    assert Identities(t, c) == KindIdentities(t, Email, RawValues(c, Email)) + KindIdentities(t, Phone, RawValues(c, Phone));
    if Synced(t, c).Some? {
      BothKinds(PointsOf(t, Email, OrderedValues(t, RawValues(c, Email))).value,
                PointsOf(t, Phone, OrderedValues(t, RawValues(c, Phone))).value);
    }
    assert AllValid(t, c) <==>
      (forall v :: v in RawValues(c, Email) && t.strip(v) != "" ==> t.normalize(Email, v).Some?)
      && (forall v :: v in RawValues(c, Phone) && t.strip(v) != "" ==> t.normalize(Phone, v).Some?);
  }

  // ----- _sync_imported_contact_points: values that do not normalize are skipped -----

  function ImportedOf(t: Text, k: Kind, values: seq<string>): seq<Point> {
    if values == [] then []
    else
      var at := |values| - 1;
      var before := ImportedOf(t, k, values[..at]);
      match t.normalize(k, values[at])
      case None => before
      case Some(n) =>
        if (k, n) in PointIdentities(before) then before
        else before + [Point(k, values[at], n, before == [])]
  }

  function Imported(t: Text, c: Contact): seq<Point> {
    if c.deleted then [] else ImportedOf(t, Email, c.emails) + ImportedOf(t, Phone, c.phones)
  }

  lemma {:induction false} ImportedOfFacts(t: Text, k: Kind, values: seq<string>)
    ensures var points := ImportedOf(t, k, values);
      && (forall p :: p in points ==> p.kind == k)
      && PointIdentities(points) == KindIdentities(t, k, values)
      && NoRepeats(points)
      && (forall i :: 0 <= i < |points| ==> (points[i].primary <==> i == 0))
  {
    if values != [] {
      var at := |values| - 1;
      var front := values[..at];
      ImportedOfFacts(t, k, front);
      assert values == front + [values[at]];
      var before := ImportedOf(t, k, front);
      if t.normalize(k, values[at]).Some? {
        var n := t.normalize(k, values[at]).value;
        assert KindIdentities(t, k, values) == KindIdentities(t, k, front) + {(k, n)};
        if (k, n) !in PointIdentities(before) {
          var points := before + [Point(k, values[at], n, before == [])];
          forall i | 0 <= i < |before| ensures (before[i].kind, before[i].normalized) != (k, n) {
            assert before[i] in before;
          }
          assert PointIdentities(points) == PointIdentities(before) + {(k, n)} by {
            assert points[|before|] in points;
            forall p | p in before ensures p in points {}
          }
        }
      } else {
        assert KindIdentities(t, k, values) == KindIdentities(t, k, front);
      }
    }
  }

  // The importer sets the primary value to the first listed one, which is what
  // makes skipping the primary field harmless.
  ghost predicate PrimaryListed(c: Contact) {
    forall k :: Primary(c, k) == if Listed(c, k) == [] then None else Some(Listed(c, k)[0])
  }

  lemma ImportedAgrees(t: Text, c: Contact)
    requires PrimaryListed(c)
    ensures Agrees(t, c, Imported(t, c))
  {
    if !c.deleted {
      ImportedOfFacts(t, Email, c.emails);
      ImportedOfFacts(t, Phone, c.phones);
      BothKinds(ImportedOf(t, Email, c.emails), ImportedOf(t, Phone, c.phones));
      ImportedRaw(t, c, Email);
      ImportedRaw(t, c, Phone);
      assert Identities(t, c) == KindIdentities(t, Email, RawValues(c, Email)) + KindIdentities(t, Phone, RawValues(c, Phone));
    }
  }

  lemma FirstListed(c: Contact)
    requires c.primaryEmail == if c.emails == [] then None else Some(c.emails[0])
    requires c.primaryPhone == if c.phones == [] then None else Some(c.phones[0])
    ensures PrimaryListed(c)
  {
  }

  lemma NoRowsWhenDeleted(t: Text, c: Contact, points: seq<Point>)
    requires Agrees(t, c, points)
    ensures c.deleted ==> points == []
  {
  }

  lemma ImportedRaw(t: Text, c: Contact, k: Kind)
    requires PrimaryListed(c)
    ensures KindIdentities(t, k, RawValues(c, k)) == KindIdentities(t, k, Listed(c, k))
  {
    assert Primary(c, k) == if Listed(c, k) == [] then None else Some(Listed(c, k)[0]);
    assert forall v :: v in RawValues(c, k) <==> v in Listed(c, k);
  }

  // ----- _add_contact_point: one more row, primary -----

  function WithPoint(t: Text, points: seq<Point>, k: Kind, value: string): Option<seq<Point>> {
    match t.normalize(k, value)
    case None => None
    case Some(n) =>
      if (k, n) in PointIdentities(points) then Some(points) else Some(points + [Point(k, value, n, true)])
  }

  // Inbound routing opens a contact with at most one email and one phone, and
  // adds a row for each (structured leads list them, channels only set the primary).
  function InboundContact(assignee: Option<Id>, email: Option<string>, phone: Option<string>, listed: bool): Contact {
    Contact(None, assignee, false, email, phone,
      if listed && email.Some? then [email.value] else [],
      if listed && phone.Some? then [phone.value] else [], 1)
  }

  function InboundPoints(t: Text, email: Option<string>, phone: Option<string>): Option<seq<Point>> {
    match if email.Some? then WithPoint(t, [], Email, email.value) else Some([])
    case None => None
    case Some(points) => if phone.Some? then WithPoint(t, points, Phone, phone.value) else Some(points)
  }

  lemma InboundAgrees(t: Text, assignee: Option<Id>, email: Option<string>, phone: Option<string>, listed: bool)
    requires Lawful(t)
    ensures InboundPoints(t, email, phone).Some? ==>
      Agrees(t, InboundContact(assignee, email, phone, listed), InboundPoints(t, email, phone).value)
  {
    var c := InboundContact(assignee, email, phone, listed);
    if InboundPoints(t, email, phone).Some? {
      var points := InboundPoints(t, email, phone).value;
      var emails := if email.Some? then [Point(Email, email.value, t.normalize(Email, email.value).value, true)] else [];
      var phones := if phone.Some? then [Point(Phone, phone.value, t.normalize(Phone, phone.value).value, true)] else [];
      assert PointIdentities([]) == {};
      assert email.Some? ==> email.value != "";
      assert phone.Some? ==> phone.value != "";
      assert points == emails + phones;
      BothKinds(emails, phones);
      RawInbound(c, Email, email);
      RawInbound(c, Phone, phone);
      assert PointIdentities(emails) == KindIdentities(t, Email, RawValues(c, Email));
      assert PointIdentities(phones) == KindIdentities(t, Phone, RawValues(c, Phone));
      assert Identities(t, c) == KindIdentities(t, Email, RawValues(c, Email)) + KindIdentities(t, Phone, RawValues(c, Phone));
    }
  }

  lemma RawInbound(c: Contact, k: Kind, value: Option<string>)
    requires Primary(c, k) == value && (value.Some? ==> value.value != "")
    requires Listed(c, k) == [] || (value.Some? && Listed(c, k) == [value.value])
    ensures forall v :: v in RawValues(c, k) <==> value == Some(v)
  {
  }

  // ----- the tables, as the program changes them -----

  class ContactBook {
    const text: Text
    var contacts: map<Id, Contact>
    var points: map<Id, seq<Point>>
    var nextId: Id

    // The index agrees with every contact, and has no rows for anything else.
    ghost predicate Agreement()
      reads this
    {
      && points.Keys == contacts.Keys
      && (forall id :: id in contacts ==> id < nextId)
      && (forall id :: id in contacts ==> Agrees(text, contacts[id], points[id]))
    }

    constructor (text: Text)
      requires Lawful(text)
      ensures Agreement() && this.text == text && contacts == map[]
    {
      this.text, contacts, points, nextId := text, map[], map[], 0;
    }

    // Rows for the values of one kind; None when a value does not normalize.
    method SyncKind(k: Kind, values: seq<string>) returns (rows: Option<seq<Point>>)
      ensures rows == PointsOf(text, k, values)
    {
      var built: seq<Point> := [];
      var seen: set<Identity> := {};
      for i := 0 to |values|
        invariant PointsOf(text, k, values[..i]) == Some(built)
        invariant seen == PointIdentities(built)
      {
        assert values[..i + 1][..i] == values[..i];
        var normalized := text.normalize(k, values[i]);
        if normalized.None? {
          PointsOfFacts(text, k, values[..i + 1]);
          PointsOfFacts(text, k, values);
          return None;
        }
        var identity := (k, normalized.value);
        if identity !in seen {
          var row := Point(k, values[i], normalized.value, i == 0);
          assert PointIdentities(built + [row]) == PointIdentities(built) + {identity} by {
            assert row in built + [row];
            forall p | p in built ensures p in built + [row] {}
          }
          seen := seen + {identity};
          built := built + [row];
        }
      }
      assert values[..|values|] == values;
      return Some(built);
    }

    method SyncContactPoints(c: Contact) returns (rows: Option<seq<Point>>)
      ensures rows == Synced(text, c)
    {
      var emails := SyncKind(Email, OrderedValues(text, RawValues(c, Email)));
      if emails.None? { return None; }
      var phones := SyncKind(Phone, OrderedValues(text, RawValues(c, Phone)));
      if phones.None? { return None; }
      return Some(emails.value + phones.value);
    }

    // create_contact: a value that does not normalize, or is too long for the
    // index, aborts the transaction.
    method Create(c: Contact) returns (id: Option<Id>)
      requires Agreement() && Lawful(text) && !c.deleted
      modifies this
      ensures Agreement()
      ensures id.Some? <==> Indexable(text, c)
      ensures id.Some? ==> id.value !in old(contacts) && contacts == old(contacts)[id.value := c]
      ensures id.Some? ==> Synced(text, c).Some? && points == old(points)[id.value := Synced(text, c).value]
      ensures id.None? ==> contacts == old(contacts) && points == old(points)
    {
      SyncedAgrees(text, c);
      var rows := SyncContactPoints(c);
      if rows.None? || !PointsFit(rows.value) { return None; }
      contacts, points := contacts[nextId := c], points[nextId := rows.value];
      id := Some(nextId);
      nextId := nextId + 1;
    }

    // update_contact and the import's merge: only live contacts are written.
    method Update(id: Id, c: Contact) returns (ok: bool)
      requires Agreement() && Lawful(text)
      requires id in contacts && !contacts[id].deleted && !c.deleted
      modifies this
      ensures Agreement()
      ensures ok <==> Indexable(text, c)
      ensures contacts == if ok then old(contacts)[id := c] else old(contacts)
      ensures ok ==> Synced(text, c).Some? && points == old(points)[id := Synced(text, c).value]
      ensures !ok ==> points == old(points)
    {
      SyncedAgrees(text, c);
      var rows := SyncContactPoints(c);
      ok := rows.Some? && PointsFit(rows.value);
      if ok {
        contacts, points := contacts[id := c], points[id := rows.value];
      }
    }

    // delete_contact: the row stays, marked deleted; its index rows go.
    method Delete(id: Id)
      requires Agreement() && id in contacts && !contacts[id].deleted
      modifies this
      ensures Agreement()
      ensures contacts == old(contacts)[id := old(contacts[id]).(deleted := true, version := old(contacts[id]).version + 1)]
      ensures points == old(points)[id := []]
    {
      var c := contacts[id];
      contacts, points := contacts[id := c.(deleted := true, version := c.version + 1)], points[id := []];
    }

    // Rows for the listed values of one kind; a value that does not normalize is
    // skipped, and the first row that is left is the primary one.
    method SyncImportedKind(k: Kind, values: seq<string>) returns (built: seq<Point>)
      ensures built == ImportedOf(text, k, values)
    {
      built := [];
      var seen: set<Identity> := {};
      for i := 0 to |values|
        invariant built == ImportedOf(text, k, values[..i])
        invariant seen == PointIdentities(built)
      {
        assert values[..i + 1][..i] == values[..i];
        var normalized := text.normalize(k, values[i]);
        if normalized.Some? {
          var identity := (k, normalized.value);
          if identity !in seen {
            var row := Point(k, values[i], normalized.value, built == []);
            assert PointIdentities(built + [row]) == PointIdentities(built) + {identity} by {
              assert row in built + [row];
              forall p | p in built ensures p in built + [row] {}
            }
            seen := seen + {identity};
            built := built + [row];
          }
        }
      }
      assert values[..|values|] == values;
    }

    // _sync_imported_contact_points: a contact marked deleted keeps no rows.
    method SyncImported(c: Contact) returns (rows: seq<Point>)
      ensures rows == Imported(text, c)
    {
      if c.deleted { return []; }
      var emails := SyncImportedKind(Email, c.emails);
      var phones := SyncImportedKind(Phone, c.phones);
      return emails + phones;
    }

    // The amoCRM writer, for a new contact (no id) or the one the entity is
    // mapped to, which may be marked deleted and then stays so.
    method Import(existing: Option<Id>, company: Option<Id>, assignee: Option<Id>, emails: seq<string>, phones: seq<string>)
      returns (id: Id)
      requires Agreement()
      requires existing.Some? ==> existing.value in contacts
      modifies this
      ensures Agreement()
      ensures if existing.Some? then id == existing.value else id !in old(contacts)
      ensures id in contacts && contacts == old(contacts)[id := contacts[id]]
      ensures var c := contacts[id];
        && c.company == company && c.assignee == assignee && c.emails == emails && c.phones == phones
        && (c.deleted <==> existing.Some? && old(contacts)[id].deleted)
        && c.version == if existing.Some? then old(contacts)[id].version + 1 else 1
      ensures PrimaryListed(contacts[id])
      ensures points == old(points)[id := Imported(text, contacts[id])] && (contacts[id].deleted ==> points[id] == [])
      ensures forall other :: other in old(points) && other != id ==> other in points && points[other] == old(points)[other]
    {
      hide Agrees, Imported, PrimaryListed;
      var email := if emails == [] then None else Some(emails[0]);
      var phone := if phones == [] then None else Some(phones[0]);
      var c := Contact(company, assignee, false, email, phone, emails, phones, 1);
      if existing.Some? {
        id := existing.value;
        c := c.(deleted := contacts[id].deleted, version := contacts[id].version + 1);
      } else {
        id := nextId;
        nextId := nextId + 1;
      }
      FirstListed(c);
      ImportedAgrees(text, c);
      var rows := SyncImported(c);
      contacts, points := contacts[id := c], points[id := rows];
      NoRowsWhenDeleted(text, c, rows);
    }

    // Inbound routing, for a channel message or a structured lead.
    method Inbound(assignee: Option<Id>, email: Option<string>, phone: Option<string>, listed: bool) returns (id: Option<Id>)
      requires Agreement() && Lawful(text)
      modifies this
      ensures Agreement()
      ensures id.Some? <==> InboundPoints(text, email, phone).Some?
      ensures id.Some? ==> id.value !in old(contacts)
      ensures id.Some? ==> contacts == old(contacts)[id.value := InboundContact(assignee, email, phone, listed)]
      ensures id.Some? ==> points == old(points)[id.value := InboundPoints(text, email, phone).value]
      ensures id.None? ==> contacts == old(contacts) && points == old(points)
    {
      InboundAgrees(text, assignee, email, phone, listed);
      var rows := InboundPoints(text, email, phone);
      if rows.None? { return None; }
      contacts := contacts[nextId := InboundContact(assignee, email, phone, listed)];
      points := points[nextId := rows.value];
      id := Some(nextId);
      nextId := nextId + 1;
    }

    // match_contact_point. The indexed join finds exactly the live contacts that
    // a scan over all contacts and their values would find.
    method MatchContactPoint(k: Kind, value: string) returns (found: Option<set<Id>>)
      requires Agreement() && Lawful(text)
      ensures found.None? <==> text.normalize(k, value).None?
      ensures found.Some? ==> forall id :: id in found.value <==>
        && id in contacts && !contacts[id].deleted
        && exists v :: v in RawValues(contacts[id], k) && text.normalize(k, v) == text.normalize(k, value)
    {
      var normalized := text.normalize(k, value);
      if normalized.None? { return None; }
      var n := normalized.value;
      var ids := set id | id in points && id in contacts && !contacts[id].deleted
                   && exists p :: p in points[id] && p.kind == k && p.normalized == n;
      forall id | id in contacts && !contacts[id].deleted
        ensures id in ids <==> exists v :: v in RawValues(contacts[id], k) && text.normalize(k, v) == Some(n)
      {
        assert Agrees(text, contacts[id], points[id]);
        assert (k, n) in PointIdentities(points[id]) <==> (k, n) in Identities(text, contacts[id]);
      }
      found := Some(ids);
    }
  }
}
