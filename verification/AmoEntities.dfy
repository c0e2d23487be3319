// Which rows of the amoCRM account an import reads, and under which external
// ids (backend/app/integrations/amocrm_live.py).
module AmoEntities {
  import opened Prelude
  import opened AmoPages

  // A row of a flat list: of the tasks only those that are not completed.
  ghost predicate Listed(remote: Remote, t: EntityType, e: Entity) {
    exists item :: item in Flatten(ListOf(remote, t)) && (t == Tasks ==> !item.completed) && e == Entity(t, item.id, item.data)
  }

  // A stage, under the id of its pipeline and its own.
  ghost predicate StageOf(remote: Remote, e: Entity) {
    exists p, s :: p in Flatten(remote.pipelines) && s in p.statuses && e == Entity(Stages, p.item.id + ":" + s.id, s.data)
  }

  // A custom field of deals, contacts or companies, or an ordinary note of one
  // of them, under the name of what it belongs to and its own id.
  ghost predicate PartOf(remote: Remote, t: EntityType, e: Entity) {
    exists i, item ::
      && 0 <= i < 3 && item in Flatten(PartitionOf(remote, t, i)) && (t == Notes ==> item.ordinary)
      && e == Entity(t, (if t == CustomFields then ["deal", "contact", "company"][i] else ["leads", "contacts", "companies"][i]) + ":" + item.id, item.data)
  }

  lemma {:induction false} FromItems(t: EntityType, prefix: string, items: seq<Item>, e: Entity)
    ensures e in EntitiesFrom(t, prefix, items) <==>
      exists item :: item in items && (t == Tasks ==> !item.completed) && (t == Notes ==> item.ordinary)
                     && e == Entity(t, prefix + item.id, item.data)
  {
    if items != [] {
      FromItems(t, prefix, items[1..], e);
      assert items == [items[0]] + items[1..];
    }
  }

  lemma {:induction false} FromPipelines(pipelines: seq<Pipeline>, e: Entity)
    ensures e in Flattened(pipelines) <==>
      exists p, s :: p in pipelines && s in p.statuses && e == Entity(Stages, p.item.id + ":" + s.id, s.data)
  {
    hide EntitiesFrom;
    if pipelines != [] {
      FromPipelines(pipelines[1..], e);
      FromItems(Stages, pipelines[0].item.id + ":", pipelines[0].statuses, e);
      assert pipelines == [pipelines[0]] + pipelines[1..];
    }
  }

  lemma FromPartition(remote: Remote, t: EntityType, i: nat, e: Entity)
    requires i < 3 && (t == CustomFields || t == Notes)
    ensures e in EntitiesFrom(t, PartitionPrefix(t, i), Flatten(PartitionOf(remote, t, i))) <==>
      exists item ::
        && item in Flatten(PartitionOf(remote, t, i)) && (t == Notes ==> item.ordinary)
        && e == Entity(t, (if t == CustomFields then ["deal", "contact", "company"][i] else ["leads", "contacts", "companies"][i]) + ":" + item.id, item.data)
  {
    hide EntitiesFrom, PartitionOf, Flatten;
    FromItems(t, PartitionPrefix(t, i), Flatten(PartitionOf(remote, t, i)), e);
  }

  lemma ThreePartitions(remote: Remote, t: EntityType)
    ensures PartitionsFrom(remote, t, 0) ==
      EntitiesFrom(t, PartitionPrefix(t, 0), Flatten(PartitionOf(remote, t, 0)))
      + (EntitiesFrom(t, PartitionPrefix(t, 1), Flatten(PartitionOf(remote, t, 1)))
         + (EntitiesFrom(t, PartitionPrefix(t, 2), Flatten(PartitionOf(remote, t, 2))) + []))
  {
    hide EntitiesFrom, PartitionOf, PartitionPrefix, Flatten;
    assert PartitionsFrom(remote, t, 3) == [];
    assert PartitionsFrom(remote, t, 2) == EntitiesFrom(t, PartitionPrefix(t, 2), Flatten(PartitionOf(remote, t, 2))) + [];
  }

  // Everything of one type: stages of all pipelines, custom fields and notes of
  // three kinds of parents, or one flat list.
  lemma WhatIsRead(remote: Remote, t: EntityType, e: Entity)
    ensures e in EntitiesOf(remote, t) <==>
      if t == Stages then StageOf(remote, e)
      else if t == CustomFields || t == Notes then PartOf(remote, t, e)
      else Listed(remote, t, e)
  {
    hide EntitiesFrom, PartitionsFrom, Flattened, PartitionPrefix, Flatten, PartitionOf, ListOf;
    if t == Stages {
      FromPipelines(Flatten(remote.pipelines), e);
    } else if t == CustomFields || t == Notes {
      ThreePartitions(remote, t);
      FromPartition(remote, t, 0, e);
      FromPartition(remote, t, 1, e);
      FromPartition(remote, t, 2, e);
    } else {
      FromItems(t, "", Flatten(ListOf(remote, t)), e);
      assert forall id: string :: "" + id == id;
    }
  }
}
