// Applying one fetched page to an import job and to the external-id map
// (backend/app/integrations/amo.py).
module AmoImport {
  import opened Prelude
  import opened AmoPages

  type Id = nat

  // A digest stands for what it is computed from: the schema version that
  // prefixes the payload (0 for none) and the canonical payload itself.
  datatype Fingerprint = Fingerprint(schema: nat, entityType: Option<EntityType>, data: string)

  function SchemaVersion(t: EntityType): nat {
    if t == Companies || t == Deals || t == Notes then 2 else 0
  }

  function FingerprintOf(e: Entity): Fingerprint {
    if SchemaVersion(e.entityType) == 0 then Fingerprint(0, None, e.data)
    else Fingerprint(SchemaVersion(e.entityType), Some(e.entityType), e.data)
  }

  datatype Mapping = Mapping(internal: Id, fingerprint: Fingerprint)

  type Maps = map<(EntityType, string), Mapping>

  // What the writer does to the CRM is not modelled, only the id it returns.
  type Writer = (Entity, Option<Id>) -> Id

  datatype Counters = Counters(created: nat, updated: nat, same: nat, wouldCreate: nat, wouldUpdate: nat)

  const ZERO := Counters(0, 0, 0, 0, 0)

  function Total(c: Counters): nat {
    c.created + c.updated + c.same + c.wouldCreate + c.wouldUpdate
  }

  function Plus(a: Counters, b: Counters): Counters {
    Counters(a.created + b.created, a.updated + b.updated, a.same + b.same,
             a.wouldCreate + b.wouldCreate, a.wouldUpdate + b.wouldUpdate)
  }

  function Key(e: Entity): (EntityType, string) {
    (e.entityType, e.externalId)
  }

  predicate Unchanged(maps: Maps, e: Entity) {
    Key(e) in maps && maps[Key(e)].fingerprint == FingerprintOf(e)
  }

  // ----- one entity -----

  function ApplyOne(maps: Maps, e: Entity, dry: bool, writer: Writer): (Maps, Counters) {
    if Unchanged(maps, e) then (maps, ZERO.(same := 1))
    else if dry then
      (maps, if Key(e) in maps then ZERO.(wouldUpdate := 1) else ZERO.(wouldCreate := 1))
    else if Key(e) in maps then
      (maps[Key(e) := Mapping(writer(e, Some(maps[Key(e)].internal)), FingerprintOf(e))], ZERO.(updated := 1))
    else
      (maps[Key(e) := Mapping(writer(e, None), FingerprintOf(e))], ZERO.(created := 1))
  }

  function Apply(maps: Maps, entities: seq<Entity>, dry: bool, writer: Writer): (Maps, Counters) {
    if entities == [] then (maps, ZERO)
    else
      var (before, counters) := Apply(maps, entities[..|entities| - 1], dry, writer);
      var (after, one) := ApplyOne(before, entities[|entities| - 1], dry, writer);
      (after, Plus(counters, one))
  }

  predicate DistinctIds(entities: seq<Entity>) {
    forall i, j :: 0 <= i < j < |entities| ==> entities[i].externalId != entities[j].externalId
  }

  // ----- what applying a page means -----

  // Every entity is counted once.
  lemma {:induction false} CountsEveryEntity(maps: Maps, entities: seq<Entity>, dry: bool, writer: Writer)
    ensures Total(Apply(maps, entities, dry, writer).1) == |entities|
  {
    if entities != [] {
      CountsEveryEntity(maps, entities[..|entities| - 1], dry, writer);
    }
  }

  // After a page with distinct keys: its entities are mapped with their current
  // fingerprints, every other key is as before, and no key is lost.
  lemma {:induction false} MapsEveryEntity(maps: Maps, entities: seq<Entity>, writer: Writer)
    requires forall i, j :: 0 <= i < j < |entities| ==> Key(entities[i]) != Key(entities[j])
    ensures var after := Apply(maps, entities, false, writer).0;
      && (forall e :: e in entities ==> Unchanged(after, e))
      && (forall k :: (forall e :: e in entities ==> Key(e) != k) ==> (k in after <==> k in maps))
      && (forall k :: (forall e :: e in entities ==> Key(e) != k) && k in maps ==> after[k] == maps[k])
  {
    if entities != [] {
      var front, e := entities[..|entities| - 1], entities[|entities| - 1];
      MapsEveryEntity(maps, front, writer);
      assert entities == front + [e];
      var before := Apply(maps, front, false, writer).0;
      var after := Apply(maps, entities, false, writer).0;
      assert after == ApplyOne(before, e, false, writer).0;
      hide Apply, ApplyOne, Key, FingerprintOf;
      OneMapped(before, e, writer);
      forall x | x in entities ensures Unchanged(after, x) {
        if x in front {
          assert Key(x) != Key(e);
          OtherUnchanged(before, after, x);
        }
      }
      assert e in entities && forall x :: x in front ==> x in entities;
    }
  }

  lemma OneMapped(maps: Maps, e: Entity, writer: Writer)
    ensures var after := ApplyOne(maps, e, false, writer).0;
      && Unchanged(after, e)
      && (forall k :: k != Key(e) ==> (k in after <==> k in maps))
      && (forall k :: k != Key(e) && k in maps ==> after[k] == maps[k])
  {
    hide FingerprintOf;
  }

  lemma OtherUnchanged(before: Maps, after: Maps, e: Entity)
    requires Unchanged(before, e) && Key(e) in after && after[Key(e)] == before[Key(e)]
    ensures Unchanged(after, e)
  {
  }

  // What a real page leaves for each of its entities: an entity whose data had
  // been applied keeps its mapping; any other gets the fingerprint of its data
  // and the id that the writer returns for it, given the row it was mapped to.
  lemma {:induction false} MapsToWrittenRow(maps: Maps, entities: seq<Entity>, writer: Writer)
    requires forall i, j :: 0 <= i < j < |entities| ==> Key(entities[i]) != Key(entities[j])
    ensures var after := Apply(maps, entities, false, writer).0;
      forall e :: e in entities ==>
        && Key(e) in after
        && (if Key(e) in maps && maps[Key(e)].fingerprint == FingerprintOf(e) then after[Key(e)] == maps[Key(e)]
            else
              && after[Key(e)].fingerprint == FingerprintOf(e)
              && after[Key(e)].internal == writer(e, if Key(e) in maps then Some(maps[Key(e)].internal) else None))
  {
    hide Apply, ApplyOne, Key, FingerprintOf;
    if entities == [] {
      ApplyNothing(maps, writer);
    } else {
      var front, last := entities[..|entities| - 1], entities[|entities| - 1];
      MapsToWrittenRow(maps, front, writer);
      ApplySnoc(maps, entities, false, writer);
      assert forall x :: x in front ==> Key(x) != Key(last);
      LookupsStayValid(maps, front, false, writer, last);
      OneWritten(Apply(maps, front, false, writer).0, last, writer);
      OneMapped(Apply(maps, front, false, writer).0, last, writer);
      assert forall e :: e in entities ==> e in front || e == last;
    }
  }

  lemma OneWritten(maps: Maps, e: Entity, writer: Writer)
    ensures var after := ApplyOne(maps, e, false, writer).0;
      && Key(e) in after
      && (if Key(e) in maps && maps[Key(e)].fingerprint == FingerprintOf(e) then after[Key(e)] == maps[Key(e)]
          else
            && after[Key(e)].fingerprint == FingerprintOf(e)
            && after[Key(e)].internal == writer(e, if Key(e) in maps then Some(maps[Key(e)].internal) else None))
  {
    hide FingerprintOf;
  }

  // For entities with one key the fingerprint tells exactly whether the data differ.
  // Companies, deals and notes are fingerprinted together with their schema.
  lemma FingerprintIsData(a: Entity, b: Entity)
    requires Key(a) == Key(b)
    ensures FingerprintOf(a) == FingerprintOf(b) <==> a.data == b.data
    ensures FingerprintOf(a) ==
      if a.entityType in {Companies, Deals, Notes} then Fingerprint(2, Some(a.entityType), a.data) else Fingerprint(0, None, a.data)
  {
  }

  // The data that were applied last under each mapped key.
  ghost predicate LastApplied(maps: Maps, data: map<(EntityType, string), string>) {
    && data.Keys == maps.Keys
    && forall e: Entity :: Key(e) in maps ==> (maps[Key(e)].fingerprint == FingerprintOf(e) <==> e.data == data[Key(e)])
  }

  function Tally(entities: seq<Entity>, p: Entity -> bool): nat {
    if entities == [] then 0
    else Tally(entities[..|entities| - 1], p) + if p(entities[|entities| - 1]) then 1 else 0
  }

  // So a real page counts an entity as created if it was not known, as updated if
  // its data differ from those applied last, and as unchanged if they do not.
  lemma {:induction false} CountsByData(maps: Maps, data: map<(EntityType, string), string>, entities: seq<Entity>, writer: Writer)
    requires forall i, j :: 0 <= i < j < |entities| ==> Key(entities[i]) != Key(entities[j])
    requires LastApplied(maps, data)
    ensures Apply(maps, entities, false, writer).1 == Counters(
      Tally(entities, e => Key(e) !in data),
      Tally(entities, e => Key(e) in data && e.data != data[Key(e)]),
      Tally(entities, e => Key(e) in data && e.data == data[Key(e)]), 0, 0)
  {
    hide Apply, ApplyOne, Key, FingerprintOf;
    if entities == [] {
      ApplyNothing(maps, writer);
    } else {
      var front, last := entities[..|entities| - 1], entities[|entities| - 1];
      CountsByData(maps, data, front, writer);
      ApplySnoc(maps, entities, false, writer);
      assert forall x :: x in front ==> Key(x) != Key(last);
      LookupsStayValid(maps, front, false, writer, last);
      CountsOne(Apply(maps, front, false, writer).0, last, writer);
    }
  }

  lemma CountsOne(maps: Maps, e: Entity, writer: Writer)
    ensures ApplyOne(maps, e, false, writer).1 ==
      if Key(e) !in maps then Counters(1, 0, 0, 0, 0)
      else if maps[Key(e)].fingerprint == FingerprintOf(e) then Counters(0, 0, 1, 0, 0)
      else Counters(0, 1, 0, 0, 0)
  {
    hide FingerprintOf;
  }

  // And the page is what was applied last from then on.
  function Remembered(data: map<(EntityType, string), string>, entities: seq<Entity>): map<(EntityType, string), string> {
    if entities == [] then data
    else Remembered(data, entities[..|entities| - 1])[Key(entities[|entities| - 1]) := entities[|entities| - 1].data]
  }

  lemma {:induction false} RemembersData(maps: Maps, data: map<(EntityType, string), string>, entities: seq<Entity>, writer: Writer)
    requires LastApplied(maps, data)
    ensures LastApplied(Apply(maps, entities, false, writer).0, Remembered(data, entities))
  {
    hide Apply, ApplyOne, Key, FingerprintOf, LastApplied;
    if entities == [] {
      ApplyNothing(maps, writer);
    } else {
      var front, last := entities[..|entities| - 1], entities[|entities| - 1];
      RemembersData(maps, data, front, writer);
      ApplySnoc(maps, entities, false, writer);
      RemembersOne(Apply(maps, front, false, writer).0, Remembered(data, front), last, writer);
    }
  }

  lemma RemembersOne(maps: Maps, data: map<(EntityType, string), string>, e: Entity, writer: Writer)
    requires LastApplied(maps, data)
    ensures LastApplied(ApplyOne(maps, e, false, writer).0, data[Key(e) := e.data])
  {
    hide Key, FingerprintOf, ApplyOne;
    var after := ApplyOne(maps, e, false, writer).0;
    OneMapped(maps, e, writer);
    forall x: Entity | Key(x) in after ensures after[Key(x)].fingerprint == FingerprintOf(x) <==> x.data == data[Key(e) := e.data][Key(x)] {
      if Key(x) == Key(e) {
        assert Unchanged(after, e);
        FingerprintIsData(e, x);
      }
    }
  }

  // A writer that updates the row it is given never moves a mapping to another row.
  ghost predicate UpdatesInPlace(writer: Writer) {
    forall e, i :: writer(e, Some(i)) == i
  }

  lemma {:induction false} RowsStay(maps: Maps, entities: seq<Entity>, dry: bool, writer: Writer)
    requires UpdatesInPlace(writer)
    ensures var after := Apply(maps, entities, dry, writer).0;
      forall k :: k in maps ==> k in after && after[k].internal == maps[k].internal
  {
    hide FingerprintOf;
    if entities != [] {
      RowsStay(maps, entities[..|entities| - 1], dry, writer);
    }
  }

  // A page whose entities are all mapped with their fingerprints changes nothing.
  lemma {:induction false} UnchangedPage(maps: Maps, entities: seq<Entity>, dry: bool, writer: Writer)
    requires forall e :: e in entities ==> Unchanged(maps, e)
    ensures Apply(maps, entities, dry, writer) == (maps, ZERO.(same := |entities|))
  {
    if entities != [] {
      UnchangedPage(maps, entities[..|entities| - 1], dry, writer);
    }
  }

  // Applying a page a second time only counts "unchanged".
  lemma ReapplyingIsIdempotent(maps: Maps, entities: seq<Entity>, dry: bool, writer: Writer)
    requires forall i, j :: 0 <= i < j < |entities| ==> Key(entities[i]) != Key(entities[j])
    ensures var after := Apply(maps, entities, false, writer).0;
      Apply(after, entities, dry, writer) == (after, ZERO.(same := |entities|))
  {
    MapsEveryEntity(maps, entities, writer);
    UnchangedPage(Apply(maps, entities, false, writer).0, entities, dry, writer);
  }

  // The lookups that the program makes once, before its loop, are still right
  // inside the loop because a page never repeats an external id.
  lemma {:induction false} LookupsStayValid(maps: Maps, entities: seq<Entity>, dry: bool, writer: Writer, e: Entity)
    requires forall x :: x in entities ==> Key(x) != Key(e)
    ensures var after := Apply(maps, entities, dry, writer).0;
      (Key(e) in after <==> Key(e) in maps) && (Key(e) in maps ==> after[Key(e)] == maps[Key(e)])
  {
    if entities != [] {
      LookupsStayValid(maps, entities[..|entities| - 1], dry, writer, e);
    }
  }

  lemma ApplySnoc(maps: Maps, entities: seq<Entity>, dry: bool, writer: Writer)
    requires entities != []
    ensures var before := Apply(maps, entities[..|entities| - 1], dry, writer);
      var step := ApplyOne(before.0, entities[|entities| - 1], dry, writer);
      Apply(maps, entities, dry, writer) == (step.0, Plus(before.1, step.1))
  {
  }

  // A dry run leaves the map alone and announces the split of the real run.
  lemma {:induction false} DryAnnouncesReal(maps: Maps, entities: seq<Entity>, writer: Writer)
    requires forall i, j :: 0 <= i < j < |entities| ==> Key(entities[i]) != Key(entities[j])
    ensures Apply(maps, entities, true, writer).0 == maps
    ensures var written := Apply(maps, entities, false, writer).1;
      && Apply(maps, entities, true, writer).1 == Counters(0, 0, written.same, written.created, written.updated)
      && written.wouldCreate == 0 && written.wouldUpdate == 0
  {
    hide Apply, ApplyOne;
    if entities == [] {
      ApplyNothing(maps, writer);
    } else {
      var front, e := entities[..|entities| - 1], entities[|entities| - 1];
      DryAnnouncesReal(maps, front, writer);
      assert forall x :: x in front ==> Key(x) != Key(e);
      LookupsStayValid(maps, front, false, writer, e);
      ApplySnoc(maps, entities, true, writer);
      ApplySnoc(maps, entities, false, writer);
      OneAnnounces(maps, Apply(maps, front, false, writer).0, e, writer);
    }
  }

  lemma ApplyNothing(maps: Maps, writer: Writer)
    ensures Apply(maps, [], true, writer) == (maps, ZERO) == Apply(maps, [], false, writer)
  {
  }

  // One entity, looked up in two maps that agree about it.
  lemma OneAnnounces(dry: Maps, written: Maps, e: Entity, writer: Writer)
    requires Key(e) in written <==> Key(e) in dry
    requires Key(e) in dry ==> written[Key(e)] == dry[Key(e)]
    ensures ApplyOne(dry, e, true, writer).0 == dry
    ensures var one := ApplyOne(written, e, false, writer).1;
      && ApplyOne(dry, e, true, writer).1 == Counters(0, 0, one.same, one.created, one.updated)
      && one.wouldCreate == 0 && one.wouldUpdate == 0
  {
  }

  // One round of the loop over a page.
  lemma NothingApplied(maps: Maps, entities: seq<Entity>, dry: bool, writer: Writer)
    ensures Apply(maps, entities[..0], dry, writer) == (maps, ZERO)
  {
  }

  lemma NextEntity(maps: Maps, entities: seq<Entity>, i: nat, entityType: EntityType, dry: bool, writer: Writer)
    requires i < |entities| && DistinctIds(entities) && forall e :: e in entities ==> e.entityType == entityType
    ensures var (before, counters) := Apply(maps, entities[..i], dry, writer);
      var step := ApplyOne(before, entities[i], dry, writer);
      && Apply(maps, entities[..i + 1], dry, writer) == (step.0, Plus(counters, step.1))
      && (Key(entities[i]) in before <==> Key(entities[i]) in maps)
      && (Key(entities[i]) in maps ==> before[Key(entities[i])] == maps[Key(entities[i])])
  {
    hide Apply, ApplyOne, Plus;
    assert entities[..i + 1][..i] == entities[..i];
    assert forall x :: x in entities[..i] ==> Key(x) != Key(entities[i]);
    LookupsStayValid(maps, entities[..i], dry, writer, entities[i]);
    ApplySnoc(maps, entities[..i + 1], dry, writer);
  }

  // ----- the job row -----

  datatype Status = Pending | Running | Paused | Failed | Succeeded

  datatype Error = NotApplicable | WrongEntityType | RepeatedIds

  class ExternalIds {
    var maps: Maps

    constructor ()
      ensures maps == map[]
    {
      maps := map[];
    }
  }

  class ImportJob {
    const scope: Scope
    const dryRun: bool
    var status: Status
    var cursor: JobCursor
    var counts: Counters
    var lastError: Option<string>
    var version: nat

    constructor Start(scope: Scope, dryRun: bool)
      ensures this.scope == scope && this.dryRun == dryRun
      ensures status == Running && cursor == FIRST && counts == ZERO && lastError == None && version == 1
    {
      this.scope, this.dryRun := scope, dryRun;
      status, cursor, counts, lastError, version := Running, FIRST, ZERO, None, 1;
    }

    // The loop over the entities of a page.
    method ApplyEntities(ids: ExternalIds, entities: seq<Entity>, entityType: EntityType, writer: Writer) returns (counters: Counters)
      requires DistinctIds(entities) && forall e :: e in entities ==> e.entityType == entityType
      modifies ids
      ensures (ids.maps, counters) == Apply(old(ids.maps), entities, dryRun, writer)
    {
      hide Apply, DistinctIds, Key, FingerprintOf;
      var existing := ids.maps;
      NothingApplied(existing, entities, dryRun, writer);
      counters := ZERO;
      for i := 0 to |entities|
        invariant (ids.maps, counters) == Apply(old(ids.maps), entities[..i], dryRun, writer)
      {
        var e := entities[i];
        NextEntity(existing, entities, i, entityType, dryRun, writer);
        var mapping := if Key(e) in existing then Some(existing[Key(e)]) else None;
        var fingerprint := FingerprintOf(e);
        if mapping.Some? && mapping.value.fingerprint == fingerprint {
          counters := counters.(same := counters.same + 1);
        } else if dryRun {
          if mapping.Some? {
            counters := counters.(wouldUpdate := counters.wouldUpdate + 1);
          } else {
            counters := counters.(wouldCreate := counters.wouldCreate + 1);
          }
        } else {
          var internal := writer(e, if mapping.Some? then Some(mapping.value.internal) else None);
          ids.maps := ids.maps[Key(e) := Mapping(internal, fingerprint)];
          if mapping.None? {
            counters := counters.(created := counters.created + 1);
          } else {
            counters := counters.(updated := counters.updated + 1);
          }
        }
      }
      assert entities[..|entities|] == entities;
    }

    // apply_import_page. On an error nothing is changed.
    method ApplyPage(ids: ExternalIds, page: JobPage, writer: Writer) returns (result: Option<Counters>, error: Option<Error>)
      requires forall e :: e in page.entities ==> e.entityType == page.entityType
      modifies this, ids
      ensures error == Rejection(old(status), scope, page)
      ensures error == Some(NotApplicable) <==> old(status) == Paused || old(status) == Succeeded || old(status) == Failed
      ensures error == Some(WrongEntityType) <==>
        (old(status) == Pending || old(status) == Running) && scope != All && scope != Only(page.entityType)
      ensures error == Some(RepeatedIds) <==>
        (old(status) == Pending || old(status) == Running) && (scope == All || scope == Only(page.entityType))
        && exists i, j :: 0 <= i < j < |page.entities| && page.entities[i].externalId == page.entities[j].externalId
      ensures error.Some? ==> result.None? && ids.maps == old(ids.maps)
      ensures error.Some? ==> status == old(status) && cursor == old(cursor) && counts == old(counts)
      ensures error.Some? ==> version == old(version) && lastError == old(lastError)
      ensures error.None? ==>
        && result == Some(Apply(old(ids.maps), page.entities, dryRun, writer).1)
        && ids.maps == Apply(old(ids.maps), page.entities, dryRun, writer).0
        && status == (if page.next.None? then Succeeded else Running)
        && cursor == (if page.next.None? then FIRST else page.next.value)
        && counts == Plus(old(counts), result.value)
        && version == old(version) + 1 && lastError == None
    {
      if status != Pending && status != Running {
        return None, Some(NotApplicable);
      }
      if scope != All && scope != Only(page.entityType) {
        return None, Some(WrongEntityType);
      }
      if !DistinctIds(page.entities) {
        return None, Some(RepeatedIds);
      }
      var counters := ApplyEntities(ids, page.entities, page.entityType, writer);
      status := if page.next.None? then Succeeded else Running;
      cursor := if page.next.None? then FIRST else page.next.value;
      counts := Plus(counts, counters);
      lastError := None;
      version := version + 1;
      return Some(counters), None;
    }

    // pause_import
    method Pause()
      modifies this
      ensures old(status) == Pending || old(status) == Running ==> status == Paused && version == old(version) + 1
      ensures !(old(status) == Pending || old(status) == Running) ==> status == old(status) && version == old(version)
      ensures cursor == old(cursor) && counts == old(counts) && lastError == old(lastError)
    {
      if status == Pending || status == Running {
        status, version := Paused, version + 1;
      }
    }

    // resume_import; false is the error
    method Resume() returns (ok: bool)
      modifies this
      ensures ok <==> old(status) == Paused || old(status) == Failed
      ensures ok ==> status == Running && lastError == None && version == old(version) + 1
      ensures !ok ==> status == old(status) && lastError == old(lastError) && version == old(version)
      ensures cursor == old(cursor) && counts == old(counts)
    {
      ok := status == Paused || status == Failed;
      if ok {
        status, lastError, version := Running, None, version + 1;
      }
    }

    // fail_import
    method Fail(error: string)
      modifies this
      ensures status == Failed && version == old(version) + 1
      ensures lastError == Some(if |error| > 4000 then error[..4000] else error)
      ensures cursor == old(cursor) && counts == old(counts)
    {
      status, version := Failed, version + 1;
      lastError := Some(if |error| > 4000 then error[..4000] else error);
    }
  }

  // Why a page cannot be applied, if so.
  function Rejection(status: Status, scope: Scope, page: JobPage): Option<Error> {
    if status != Pending && status != Running then Some(NotApplicable)
    else if scope != All && scope != Only(page.entityType) then Some(WrongEntityType)
    else if !DistinctIds(page.entities) then Some(RepeatedIds)
    else None
  }
}
