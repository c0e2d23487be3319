// Which rows the contact index holds: what each row says and which one is
// primary (backend/app/services/contact_points.py and the importer's own copy).
module ContactRows {
  import opened Prelude
  import opened ContactPoints

  // ----- rows made from stored values -----

  // Row p stands for raw value i, the first that normalizes to the row's
  // identity; it is primary when only blank values come before it.
  ghost predicate RowOf(t: Text, k: Kind, raw: seq<string>, p: Point, i: int) {
    && 0 <= i < |raw| && p.kind == k
    && t.strip(raw[i]) != "" && p.value == t.strip(raw[i]) && t.normalize(k, p.value) == Some(p.normalized)
    && (forall j :: 0 <= j < i ==> t.strip(raw[j]) == "" || t.normalize(k, t.strip(raw[j])) != Some(p.normalized))
    && (p.primary <==> forall j :: 0 <= j < i ==> t.strip(raw[j]) == "")
  }

  ghost predicate RowsOf(t: Text, k: Kind, raw: seq<string>, points: seq<Point>) {
    forall p :: p in points ==> exists i :: RowOf(t, k, raw, p, i)
  }

  lemma {:induction false} RowsOfRaw(t: Text, k: Kind, raw: seq<string>)
    requires Lawful(t) && PointsOf(t, k, OrderedValues(t, raw)).Some?
    ensures RowsOf(t, k, raw, PointsOf(t, k, OrderedValues(t, raw)).value)
  {
    hide PointsOf, OrderedValues, RowOf, Lawful;
    if raw == [] {
      NoRows(t, k);
    } else {
      var front, last := raw[..|raw| - 1], raw[|raw| - 1];
      OneMoreValue(t, k, raw);
      RowsOfRaw(t, k, front);
      var before, points := PointsOf(t, k, OrderedValues(t, front)).value, PointsOf(t, k, OrderedValues(t, raw)).value;
      forall p | p in points ensures exists i :: RowOf(t, k, raw, p, i) {
        if p in before {
          var i :| RowOf(t, k, front, p, i);
          StillRow(t, k, raw, p, i);
        } else {
          LastRow(t, k, raw, p);
        }
      }
    }
  }

  lemma NoRows(t: Text, k: Kind)
    ensures PointsOf(t, k, OrderedValues(t, [])) == Some([])
  {
  }

  lemma OneMoreValue(t: Text, k: Kind, raw: seq<string>)
    requires raw != [] && PointsOf(t, k, OrderedValues(t, raw)).Some?
    ensures PointsOf(t, k, OrderedValues(t, raw[..|raw| - 1])).Some?
    ensures var before, after := PointsOf(t, k, OrderedValues(t, raw[..|raw| - 1])).value, PointsOf(t, k, OrderedValues(t, raw)).value;
      var v := t.strip(raw[|raw| - 1]);
      || after == before
      || (v != "" && t.normalize(k, v).Some? && (k, t.normalize(k, v).value) !in PointIdentities(before)
          && after == before + [Point(k, v, t.normalize(k, v).value, OrderedValues(t, raw[..|raw| - 1]) == [])])
  {
    hide PointsOf, OrderedValues;
    var values, v := OrderedValues(t, raw[..|raw| - 1]), t.strip(raw[|raw| - 1]);
    NextValue(t, raw);
    if v != "" && v !in values {
      NextPoint(t, k, values, v);
    }
  }

  lemma NextValue(t: Text, raw: seq<string>)
    requires raw != []
    ensures var values, v := OrderedValues(t, raw[..|raw| - 1]), t.strip(raw[|raw| - 1]);
      OrderedValues(t, raw) == if v == "" || v in values then values else values + [v]
  {
  }

  lemma NextPoint(t: Text, k: Kind, values: seq<string>, v: string)
    requires PointsOf(t, k, values + [v]).Some?
    ensures PointsOf(t, k, values).Some? && t.normalize(k, v).Some?
    ensures var before, n := PointsOf(t, k, values).value, t.normalize(k, v).value;
      PointsOf(t, k, values + [v]).value == if (k, n) in PointIdentities(before) then before else before + [Point(k, v, n, values == [])]
  {
    assert (values + [v])[..|values|] == values;
  }

  lemma StillRow(t: Text, k: Kind, raw: seq<string>, p: Point, i: int)
    requires raw != [] && RowOf(t, k, raw[..|raw| - 1], p, i)
    ensures RowOf(t, k, raw, p, i)
  {
    var front := raw[..|raw| - 1];
    assert forall j :: 0 <= j < |front| ==> raw[j] == front[j];
  }

  lemma LastRow(t: Text, k: Kind, raw: seq<string>, p: Point)
    requires Lawful(t) && raw != [] && PointsOf(t, k, OrderedValues(t, raw[..|raw| - 1])).Some?
    requires var v := t.strip(raw[|raw| - 1]);
      && v != "" && t.normalize(k, v).Some?
      && (k, t.normalize(k, v).value) !in PointIdentities(PointsOf(t, k, OrderedValues(t, raw[..|raw| - 1])).value)
      && p == Point(k, v, t.normalize(k, v).value, OrderedValues(t, raw[..|raw| - 1]) == [])
    ensures RowOf(t, k, raw, p, |raw| - 1)
  {
    var front := raw[..|raw| - 1];
    OrderedValuesFacts(t, front);
    PointsOfFacts(t, k, OrderedValues(t, front));
    forall j | 0 <= j < |front| && t.strip(raw[j]) != ""
      ensures t.strip(raw[j]) in OrderedValues(t, front) && t.normalize(k, t.strip(raw[j])) != Some(p.normalized)
    {
      assert front[j] in front && t.strip(front[j]) in OrderedValues(t, front);
    }
    if OrderedValues(t, front) != [] {
      var v := OrderedValues(t, front)[0];
      assert v in OrderedValues(t, front);
      var r :| r in front && t.strip(r) == v;
      var j :| 0 <= j < |front| && front[j] == r;
      assert t.strip(raw[j]) != "";
    }
  }

  // The rows of a contact come from its primary value, if it is not empty, and
  // then its list, emails and phones apart.
  lemma SyncedRows(t: Text, c: Contact)
    requires Lawful(t) && Synced(t, c).Some?
    ensures var emails := (if c.primaryEmail.Some? && c.primaryEmail.value != "" then [c.primaryEmail.value] else []) + c.emails;
      forall p :: p in Synced(t, c).value && p.kind == Email ==> exists i :: RowOf(t, Email, emails, p, i)
    ensures var phones := (if c.primaryPhone.Some? && c.primaryPhone.value != "" then [c.primaryPhone.value] else []) + c.phones;
      forall p :: p in Synced(t, c).value && p.kind == Phone ==> exists i :: RowOf(t, Phone, phones, p, i)
  {
    hide RowOf, OrderedValues, PointsOf;
    RowsOfRaw(t, Email, RawValues(c, Email));
    RowsOfRaw(t, Phone, RawValues(c, Phone));
    PointsOfFacts(t, Email, OrderedValues(t, RawValues(c, Email)));
    PointsOfFacts(t, Phone, OrderedValues(t, RawValues(c, Phone)));
    var emails := (if c.primaryEmail.Some? && c.primaryEmail.value != "" then [c.primaryEmail.value] else []) + c.emails;
    var phones := (if c.primaryPhone.Some? && c.primaryPhone.value != "" then [c.primaryPhone.value] else []) + c.phones;
    assert RawValues(c, Email) == emails && RawValues(c, Phone) == phones;
    var emailRows, phoneRows := PointsOf(t, Email, OrderedValues(t, emails)).value, PointsOf(t, Phone, OrderedValues(t, phones)).value;
    assert Synced(t, c).value == emailRows + phoneRows;
  }

  // A contact can be indexed when every value that is not blank normalizes and
  // no value or normalized value is longer than 512 characters.
  lemma IndexableIs(t: Text, c: Contact)
    requires Lawful(t)
    ensures Indexable(t, c) <==>
      && (forall k, v :: v in RawValues(c, k) && t.strip(v) != "" ==> t.normalize(k, v).Some?)
      && Synced(t, c).Some? && forall p :: p in Synced(t, c).value ==> |p.value| <= 512 && |p.normalized| <= 512
  {
    SyncedAgrees(t, c);
  }

  // ----- rows made by the importer -----

  // Row p stands for listed value i, the first that normalizes to the row's
  // identity; it is primary when no value before it normalizes.
  ghost predicate ImportedRow(t: Text, k: Kind, values: seq<string>, p: Point, i: int) {
    && 0 <= i < |values| && p.kind == k && p.value == values[i] && t.normalize(k, values[i]) == Some(p.normalized)
    && (forall j :: 0 <= j < i ==> t.normalize(k, values[j]) != Some(p.normalized))
    && (p.primary <==> forall j :: 0 <= j < i ==> t.normalize(k, values[j]).None?)
  }

  lemma {:induction false} ImportedRows(t: Text, k: Kind, values: seq<string>)
    ensures forall p :: p in ImportedOf(t, k, values) ==> exists i :: ImportedRow(t, k, values, p, i)
  {
    hide ImportedRow;
    if values != [] {
      var at := |values| - 1;
      var before, points := ImportedOf(t, k, values[..at]), ImportedOf(t, k, values);
      ImportedRows(t, k, values[..at]);
      forall p | p in points ensures exists i :: ImportedRow(t, k, values, p, i) {
        if p in before {
          var i :| ImportedRow(t, k, values[..at], p, i);
          StillImported(t, k, values, p, i);
        } else {
          LastImported(t, k, values, p);
        }
      }
    }
  }

  lemma StillImported(t: Text, k: Kind, values: seq<string>, p: Point, i: int)
    requires values != [] && ImportedRow(t, k, values[..|values| - 1], p, i)
    ensures ImportedRow(t, k, values, p, i)
  {
    var front := values[..|values| - 1];
    assert forall j :: 0 <= j < |front| ==> values[j] == front[j];
  }

  lemma LastImported(t: Text, k: Kind, values: seq<string>, p: Point)
    requires values != [] && p in ImportedOf(t, k, values) && p !in ImportedOf(t, k, values[..|values| - 1])
    ensures ImportedRow(t, k, values, p, |values| - 1)
  {
    var at := |values| - 1;
    var front := values[..at];
    ImportedOfFacts(t, k, front);
    forall j | 0 <= j < at && t.normalize(k, values[j]).Some?
      ensures (k, t.normalize(k, values[j]).value) in PointIdentities(ImportedOf(t, k, front))
    {
      assert front[j] in front;
    }
    if ImportedOf(t, k, front) != [] {
      var q := ImportedOf(t, k, front)[0];
      assert q in ImportedOf(t, k, front) && (k, q.normalized) in PointIdentities(ImportedOf(t, k, front));
      var v :| v in front && t.normalize(k, v) == Some(q.normalized);
      var j :| 0 <= j < |front| && front[j] == v;
      assert t.normalize(k, values[j]).Some?;
    }
  }

  // ----- contacts opened by inbound routing -----

  // A new contact without company, with the given assignee, primary values and,
  // if asked, lists; each value it has becomes a primary row of its kind.
  lemma InboundIs(t: Text, assignee: Option<Id>, email: Option<string>, phone: Option<string>, listed: bool)
    ensures var c := InboundContact(assignee, email, phone, listed);
      && c.company == None && c.assignee == assignee && !c.deleted && c.primaryEmail == email && c.primaryPhone == phone && c.version == 1
      && c.emails == (if listed && email.Some? then [email.value] else [])
      && c.phones == (if listed && phone.Some? then [phone.value] else [])
    ensures InboundPoints(t, email, phone).None? <==>
      (email.Some? && t.normalize(Email, email.value).None?) || (phone.Some? && t.normalize(Phone, phone.value).None?)
    ensures InboundPoints(t, email, phone).Some? ==>
      InboundPoints(t, email, phone).value ==
        (if email.Some? then [Point(Email, email.value, t.normalize(Email, email.value).value, true)] else [])
        + (if phone.Some? then [Point(Phone, phone.value, t.normalize(Phone, phone.value).value, true)] else [])
  {
    assert PointIdentities([]) == {};
  }
}
