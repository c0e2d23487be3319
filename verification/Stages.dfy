// The stages of one pipeline: adding one shifts the others in two phases under
// a unique key on the position (backend/app/api/crm.py).
module Stages {
  import opened Prelude

  const MAX_STAGES: nat := 50

  type Id = nat

  datatype Kind = Open | Won | Lost

  datatype Stage = Stage(id: Id, position: int, version: nat, kind: Kind)

  datatype CreateError = TooManyStages

  datatype DeleteError = NotFound | StaleVersion | NotOpen | InUse | LastOpen

  // ----- what the rows of a pipeline always look like -----

  ghost predicate Ascending(stages: seq<Stage>) {
    forall i, j :: 0 <= i < j < |stages| ==> stages[i].position < stages[j].position
  }

  ghost predicate OpenFirst(stages: seq<Stage>) {
    forall i, j :: 0 <= i < j < |stages| && stages[j].kind == Open ==> stages[i].kind == Open
  }

  ghost predicate HasOpen(stages: seq<Stage>) {
    exists i :: 0 <= i < |stages| && stages[i].kind == Open
  }

  ghost predicate DistinctIds(stages: seq<Stage>) {
    forall i, j :: 0 <= i < j < |stages| ==> stages[i].id != stages[j].id
  }

  // The rows in the order of the query.
  ghost predicate Valid(stages: seq<Stage>) {
    && Ascending(stages) && DistinctIds(stages) && OpenFirst(stages) && HasOpen(stages)
    && |stages| <= MAX_STAGES && forall i :: 0 <= i < |stages| ==> stages[i].position >= 0
  }

  // ----- adding a stage -----

  function Offset(stages: seq<Stage>): int {
    if stages == [] then 1 else stages[|stages| - 1].position + 2
  }

  function Lifted(stages: seq<Stage>): seq<Stage> {
    seq(|stages|, i requires 0 <= i < |stages| => stages[i].(position := stages[i].position + Offset(stages)))
  }

  function InsertAt(stages: seq<Stage>): (at: nat)
    ensures at <= |stages|
  {
    if stages == [] || stages[0].kind != Open then 0 else 1 + InsertAt(stages[1..])
  }

  // The rows in their new order, before they are renumbered.
  function Inserted(stages: seq<Stage>, id: Id): seq<Stage> {
    var at := InsertAt(stages);
    stages[..at] + [Stage(id, at, 1, Open)] + stages[at..]
  }

  // Position i for row i; an existing row that moves gets a new version.
  function Renumbered(stages: seq<Stage>, id: Id): seq<Stage> {
    var ordered := Inserted(stages, id);
    seq(|ordered|, i requires 0 <= i < |ordered| =>
      var s := ordered[i];
      s.(position := i, version := if s.position != i then s.version + 1 else s.version))
  }

  // Row k of the old list is row After(k) of the new one.
  function After(stages: seq<Stage>, k: nat): nat {
    if k < InsertAt(stages) then k else k + 1
  }

  // ----- deleting a stage -----

  predicate At(stages: seq<Stage>, i: int, id: Id) {
    0 <= i < |stages| && stages[i].id == id
  }

  function OpenCount(stages: seq<Stage>): nat {
    if stages == [] then 0 else (if stages[0].kind == Open then 1 else 0) + OpenCount(stages[1..])
  }

  function Find(stages: seq<Stage>, id: Id): (i: nat)
    ensures i <= |stages|
    ensures i < |stages| ==> stages[i].id == id
    ensures forall j :: 0 <= j < i ==> stages[j].id != id
  {
    if stages == [] || stages[0].id == id then 0 else 1 + Find(stages[1..], id)
  }

  function Deletion(stages: seq<Stage>, id: Id, expected: nat, inUse: bool): (seq<Stage>, Option<DeleteError>) {
    var i := Find(stages, id);
    if i == |stages| then (stages, Some(NotFound))
    else if stages[i].version != expected then (stages, Some(StaleVersion))
    else if stages[i].kind != Open then (stages, Some(NotOpen))
    else if inUse then (stages, Some(InUse))
    else if OpenCount(stages) <= 1 then (stages, Some(LastOpen))
    else (stages[..i] + stages[i + 1..], None)
  }

  // ----- the rows themselves -----

  class Row {
    const id: Id
    const kind: Kind
    var position: int
    var version: nat

    constructor (id: Id, kind: Kind, position: int, version: nat)
      ensures this.id == id && this.kind == kind && this.position == position && this.version == version
    {
      this.id, this.kind, this.position, this.version := id, kind, position, version;
    }

    ghost function Value(): Stage
      reads this
    {
      Stage(id, position, version, kind)
    }
  }

  ghost function Values(rows: seq<Row>): seq<Stage>
    reads rows
  {
    seq(|rows|, i requires 0 <= i < |rows| reads rows => rows[i].Value())
  }

  class Pipeline {
    // in the order of their positions
    var rows: seq<Row>
    var version: nat

    ghost predicate Separate()
      reads this
    {
      forall i, j :: 0 <= i < j < |rows| ==> rows[i] != rows[j]
    }

    // create_stage
    method CreateStage(id: Id) returns (stage: Option<Row>, error: Option<CreateError>)
      requires Separate()
      modifies this, rows
      ensures Separate()
      ensures error.Some? <==> |old(rows)| >= 50
      ensures error.Some? ==> rows == old(rows) && Values(rows) == old(Values(rows)) && version == old(version)
      ensures error.None? ==>
        && Values(rows) == Renumbered(old(Values(rows)), id)
        && version == old(version) + 1
        && stage.Some? && stage.value in rows && fresh(stage.value)
    {
      hide Renumbered;
      if |rows| >= MAX_STAGES {
        return None, Some(TooManyStages);
      }
      var row := Append(id);
      version := version + 1;
      return Some(row), None;
    }

    method Append(id: Id) returns (row: Row)
      requires Separate()
      modifies this`rows, rows
      ensures Separate() && row in rows && fresh(row)
      ensures Values(rows) == Renumbered(old(Values(rows)), id)
    {
      ghost var was := Values(rows);
      var original := map row | row in rows :: row.position;
      Shift();
      ghost var shifted := Values(rows);
      LiftedFacts(was);
      LiftedInsertAt(was, shifted);
      hide Lifted, Renumbered, InsertAt;
      var insertAt := FirstClosed();
      forall k | 0 <= k < |rows| ensures rows[k].id == was[k].id && rows[k].kind == was[k].kind && rows[k].version == was[k].version {
        assert rows[k].Value() == shifted[k];
      }
      row := new Row(id, Open, insertAt, 1);
      Renumber(was, original, row);
    }

    // The first phase: out of the way of every position in use.
    method Shift()
      requires Separate()
      modifies rows
      ensures Values(rows) == Lifted(old(Values(rows)))
    {
      ghost var was := Values(rows);
      ghost var lifted := Lifted(was);
      var offset := if |rows| > 0 then rows[|rows| - 1].position + 2 else 1;
      assert offset == Offset(was);
      assert forall i :: 0 <= i < |rows| ==> lifted[i] == was[i].(position := was[i].position + offset);
      hide Lifted;
      for k := 0 to |rows|
        invariant forall i :: 0 <= i < |rows| ==> rows[i].Value() == if i < k then lifted[i] else was[i]
      {
        rows[k].position := rows[k].position + offset;
      }
    }

    method FirstClosed() returns (at: nat)
      ensures at == InsertAt(Values(rows))
    {
      ghost var was := Values(rows);
      at := 0;
      while at < |rows| && rows[at].kind == Open
        invariant at <= |rows| && InsertAt(was) == at + InsertAt(was[at..])
      {
        assert was[at..][1..] == was[at + 1..];
        at := at + 1;
      }
    }

    // The second phase: the new row in its place, everything numbered from 0.
    method Renumber(ghost was: seq<Stage>, original: map<Row, int>, row: Row)
      requires Separate() && row !in rows && |rows| == |was|
      requires row.Value() == Stage(row.id, InsertAt(was), 1, Open)
      requires forall k :: 0 <= k < |rows| ==> rows[k] in original && original[rows[k]] == was[k].position
      requires forall k :: 0 <= k < |rows| ==> rows[k].id == was[k].id && rows[k].kind == was[k].kind && rows[k].version == was[k].version
      modifies this`rows, rows, row
      ensures Separate() && row in rows
      ensures Values(rows) == Renumbered(was, row.id)
    {
      hide Renumbered, InsertAt;
      var stages, at := rows, row.position;
      assert at == row.Value().position;
      var ordered := stages[..at] + [row] + stages[at..];
      Splice(stages, at, row);
      Number(ordered, row, original);
      rows := ordered;
      assert ordered[at] == row;
      forall k | 0 <= k < |was| ensures ordered[After(was, k)] == stages[k] {
      }
      IsRenumbered(was, row.id, Values(rows));
    }

    static lemma Splice(stages: seq<Row>, at: nat, row: Row)
      requires at <= |stages| && row !in stages
      requires forall i, j :: 0 <= i < j < |stages| ==> stages[i] != stages[j]
      ensures var ordered := stages[..at] + [row] + stages[at..];
        forall i, j :: 0 <= i < j < |ordered| ==> ordered[i] != ordered[j]
    {
    }

    static method Number(ordered: seq<Row>, row: Row, original: map<Row, int>)
      requires forall i, j :: 0 <= i < j < |ordered| ==> ordered[i] != ordered[j]
      requires forall i :: 0 <= i < |ordered| && ordered[i] != row ==> ordered[i] in original
      modifies ordered
      ensures forall i :: 0 <= i < |ordered| ==> ordered[i].position == i
      ensures forall i :: 0 <= i < |ordered| ==>
        var moved := ordered[i] != row && original[ordered[i]] != i;
        ordered[i].version == old(ordered[i].version) + if moved then 1 else 0
    {
      for p := 0 to |ordered|
        invariant forall i :: 0 <= i < p ==> ordered[i].position == i
        invariant forall i :: 0 <= i < |ordered| ==>
          var moved := i < p && ordered[i] != row && original[ordered[i]] != i;
          ordered[i].version == old(ordered[i].version) + if moved then 1 else 0
      {
        ordered[p].position := p;
        if ordered[p] != row && original[ordered[p]] != p {
          ordered[p].version := ordered[p].version + 1;
        }
      }
    }

    // delete_stage
    method DeleteStage(id: Id, expected: nat, inUse: bool) returns (error: Option<DeleteError>)
      requires Separate()
      modifies this
      ensures Separate()
      ensures (Values(rows), error) == Deletion(old(Values(rows)), id, expected, inUse)
      ensures version == old(version) + if error.None? then 1 else 0
    {
      hide Find, OpenCount;
      ghost var was := Values(rows);
      var i := FindRow(id);
      if i == |rows| {
        return Some(NotFound);
      }
      if rows[i].version != expected {
        return Some(StaleVersion);
      }
      if rows[i].kind != Open {
        return Some(NotOpen);
      }
      if inUse {
        return Some(InUse);
      }
      var count := CountOpen();
      if count <= 1 {
        return Some(LastOpen);
      }
      rows := rows[..i] + rows[i + 1..];
      version := version + 1;
      assert Values(rows) == was[..i] + was[i + 1..];
      return None;
    }

    method FindRow(id: Id) returns (i: nat)
      ensures i == Find(Values(rows), id)
    {
      ghost var was := Values(rows);
      i := 0;
      while i < |rows| && rows[i].id != id
        invariant i <= |rows| && Find(was, id) == i + Find(was[i..], id)
      {
        assert was[i..][1..] == was[i + 1..];
        i := i + 1;
      }
    }

    method CountOpen() returns (count: nat)
      ensures count == OpenCount(Values(rows))
    {
      ghost var was := Values(rows);
      count := 0;
      var i := |rows|;
      while i > 0
        invariant 0 <= i <= |rows| && count == OpenCount(was[i..])
      {
        i := i - 1;
        assert was[i..][1..] == was[i + 1..];
        if rows[i].kind == Open {
          count := count + 1;
        }
      }
      assert was[0..] == was;
    }
  }

  // ----- what adding a stage does -----

  // The new stage sits just before the first stage that is not open.
  lemma {:induction false} InsertedBeforeClosed(stages: seq<Stage>)
    ensures forall i :: 0 <= i < InsertAt(stages) ==> stages[i].kind == Open
    ensures InsertAt(stages) < |stages| ==> stages[InsertAt(stages)].kind != Open
  {
    if stages != [] && stages[0].kind == Open {
      InsertedBeforeClosed(stages[1..]);
    }
  }

  // Positions end up as exactly 0..n, the old rows keep their order and
  // everything but position and version, and a version grows iff its row moved.
  lemma RenumberedFacts(stages: seq<Stage>, id: Id)
    ensures var after := Renumbered(stages, id);
      && |after| == |stages| + 1
      && (forall i :: 0 <= i < |after| ==> after[i].position == i)
      && after[InsertAt(stages)] == Stage(id, InsertAt(stages), 1, Open)
      && (forall k :: 0 <= k < |stages| ==>
            var s := after[After(stages, k)];
            s == stages[k].(position := After(stages, k),
                            version := stages[k].version + if stages[k].position != After(stages, k) then 1 else 0))
  {
    hide InsertAt;
  }

  // These facts determine the new rows.
  lemma IsRenumbered(stages: seq<Stage>, id: Id, after: seq<Stage>)
    requires |after| == |stages| + 1 && forall i :: 0 <= i < |after| ==> after[i].position == i
    requires var s := after[InsertAt(stages)]; s.id == id && s.kind == Open && s.version == 1
    requires forall k :: 0 <= k < |stages| ==>
      var s := after[After(stages, k)];
      && s.id == stages[k].id && s.kind == stages[k].kind
      && s.version == stages[k].version + if stages[k].position != After(stages, k) then 1 else 0
    ensures after == Renumbered(stages, id)
  {
    RenumberedFacts(stages, id);
    var at, target := InsertAt(stages), Renumbered(stages, id);
    hide Renumbered, InsertAt;
    forall i | 0 <= i < |after| ensures after[i] == target[i] {
      if i != at {
        var k := if i < at then i else i - 1;
        assert After(stages, k) == i;
      }
    }
  }

  lemma LiftedFacts(stages: seq<Stage>)
    ensures |Lifted(stages)| == |stages|
    ensures forall k :: 0 <= k < |stages| ==>
      var s := Lifted(stages)[k];
      s.id == stages[k].id && s.kind == stages[k].kind && s.version == stages[k].version
  {
  }

  // ----- no intermediate row write breaks the unique key -----

  // Some rows of the first phase are written, the others not yet.
  function MidShift(stages: seq<Stage>, written: set<nat>): seq<int> {
    seq(|stages|, i requires 0 <= i < |stages| =>
      if i in written then Lifted(stages)[i].position else stages[i].position)
  }

  // The second phase, row by row of the new order; None before its insertion.
  function MidRenumber(stages: seq<Stage>, id: Id, written: set<nat>): (positions: seq<Option<int>>)
    ensures |positions| == |stages| + 1
  {
    var ordered := Inserted(Lifted(stages), id);
    seq(|ordered|, i requires 0 <= i < |ordered| =>
      if i in written then Some(i) else if i == InsertAt(Lifted(stages)) then None else Some(ordered[i].position))
  }

  ghost predicate UniqueKey(positions: seq<Option<int>>) {
    forall i, j :: 0 <= i < j < |positions| && positions[i].Some? ==> positions[i] != positions[j]
  }

  lemma {:induction false} LastIsLargest(stages: seq<Stage>)
    requires Ascending(stages) && stages != [] && forall i :: 0 <= i < |stages| ==> stages[i].position >= 0
    ensures stages[|stages| - 1].position >= |stages| - 1
  {
    if |stages| > 1 {
      LastIsLargest(stages[..|stages| - 1]);
    }
  }

  lemma LiftedInsertAt(stages: seq<Stage>, others: seq<Stage>)
    requires |stages| == |others| && forall i :: 0 <= i < |stages| ==> stages[i].kind == others[i].kind
    ensures InsertAt(stages) == InsertAt(others)
  {
    if stages != [] && stages[0].kind == Open {
      LiftedInsertAt(stages[1..], others[1..]);
    }
  }

  // The distance of two rows is the offset, up to its sign.
  ghost predicate OffsetApart(stages: seq<Stage>) {
    exists i, j :: 0 <= i < j < |stages| && OneOffset(stages[j].position - stages[i].position, Offset(stages))
  }

  predicate OneOffset(distance: int, offset: int) {
    distance == offset || distance == -offset
  }

  // The first phase keeps the key, in whatever order the rows are written,
  // exactly if no two rows are one offset apart.
  lemma ShiftSafeIff(stages: seq<Stage>)
    requires Ascending(stages)
    ensures (forall written: set<nat> :: Distinct(MidShift(stages, written))) <==> !OffsetApart(stages)
  {
    hide MidShift, Offset;
    if OffsetApart(stages) {
      var written := ShiftClash(stages);
    } else {
      forall written: set<nat> ensures Distinct(MidShift(stages, written)) {
        ShiftSafe(stages, written);
      }
    }
  }

  lemma ShiftSafe(stages: seq<Stage>, written: set<nat>)
    requires Ascending(stages) && !OffsetApart(stages)
    ensures Distinct(MidShift(stages, written))
  {
    hide Offset;
    forall i, j | 0 <= i < j < |stages| ensures MidShift(stages, written)[i] != MidShift(stages, written)[j] {
      ShiftEntry(stages, written, i);
      ShiftEntry(stages, written, j);
      hide MidShift;
      assert !OneOffset(stages[j].position - stages[i].position, Offset(stages));
    }
  }

  lemma ShiftClash(stages: seq<Stage>) returns (written: set<nat>)
    requires Ascending(stages) && OffsetApart(stages)
    ensures !Distinct(MidShift(stages, written))
  {
    hide Offset;
    var i: nat, j: nat :| 0 <= i < j < |stages| && OneOffset(stages[j].position - stages[i].position, Offset(stages));
    written := if stages[j].position - stages[i].position == Offset(stages) then {i} else {j};
    ShiftEntry(stages, written, i);
    ShiftEntry(stages, written, j);
    assert MidShift(stages, written)[i] == MidShift(stages, written)[j];
  }

  // With positions that are not negative, the only ones the routes write,
  // that never happens.
  lemma NoClashInShift(stages: seq<Stage>, written: set<nat>)
    requires Ascending(stages) && forall i :: 0 <= i < |stages| ==> stages[i].position >= 0
    ensures Distinct(MidShift(stages, written))
  {
    hide Offset;
    forall i, j | 0 <= i < j < |stages| ensures !OneOffset(stages[j].position - stages[i].position, Offset(stages)) {
      BelowOffset(stages, j);
    }
    ShiftSafe(stages, written);
  }

  lemma BelowOffset(stages: seq<Stage>, i: nat)
    requires Ascending(stages) && i < |stages|
    ensures stages[i].position + 2 <= Offset(stages)
  {
    assert i < |stages| - 1 ==> stages[i].position < stages[|stages| - 1].position;
  }

  lemma ShiftEntry(stages: seq<Stage>, written: set<nat>, i: nat)
    requires i < |stages|
    ensures MidShift(stages, written)[i] == stages[i].position + if i in written then Offset(stages) else 0
  {
    hide Offset;
  }

  // A row that the first phase left in the range of the final positions, and
  // not at its own.
  ghost predicate InTheWay(stages: seq<Stage>) {
    exists k :: 0 <= k < |stages| && Blocking(stages, k)
  }

  ghost predicate Blocking(stages: seq<Stage>, k: nat)
    requires k < |stages|
  {
    0 <= Lifted(stages)[k].position <= |stages| && Lifted(stages)[k].position != After(stages, k)
  }

  // The second phase keeps the key, in whatever order the rows are written,
  // exactly if no row is in the way.
  lemma RenumberSafeIff(stages: seq<Stage>, id: Id)
    requires Ascending(stages)
    ensures (forall written: set<nat> :: UniqueKey(MidRenumber(stages, id, written))) <==> !InTheWay(stages)
  {
    hide MidRenumber, Blocking;
    if InTheWay(stages) {
      var written := RenumberClash(stages, id);
    } else {
      forall written: set<nat> ensures UniqueKey(MidRenumber(stages, id, written)) {
        RenumberSafe(stages, id, written);
      }
    }
  }

  lemma RenumberSafe(stages: seq<Stage>, id: Id, written: set<nat>)
    requires Ascending(stages) && !InTheWay(stages)
    ensures UniqueKey(MidRenumber(stages, id, written))
  {
    hide InsertAt, MidRenumber;
    var lifted := Lifted(stages);
    var at, mid := InsertAt(lifted), MidRenumber(stages, id, written);
    LiftedInsertAt(stages, lifted);
    forall i, j | 0 <= i < j < |mid| && mid[i].Some? ensures mid[i] != mid[j] {
      RenumberEntry(stages, id, written, i);
      RenumberEntry(stages, id, written, j);
      var k, l := if i < at then i else i - 1, if j < at then j else j - 1;
      if i != at {
        assert After(stages, k) == i && !Blocking(stages, k);
      }
      if j != at {
        assert After(stages, l) == j && !Blocking(stages, l);
      }
      hide Lifted;
    }
  }

  lemma RenumberClash(stages: seq<Stage>, id: Id) returns (written: set<nat>)
    requires InTheWay(stages)
    ensures !UniqueKey(MidRenumber(stages, id, written))
  {
    hide InsertAt, MidRenumber;
    var lifted := Lifted(stages);
    LiftedInsertAt(stages, lifted);
    var k: nat :| k < |stages| && Blocking(stages, k);
    var own, other := After(stages, k), lifted[k].position;
    hide Lifted;
    written := {other};
    RenumberEntry(stages, id, written, own);
    RenumberEntry(stages, id, written, other);
    var mid := MidRenumber(stages, id, written);
    assert mid[own] == mid[other] == Some(other);
  }

  lemma NoClashInRenumber(stages: seq<Stage>, id: Id, written: set<nat>)
    requires Ascending(stages) && forall i :: 0 <= i < |stages| ==> stages[i].position >= 0
    ensures UniqueKey(MidRenumber(stages, id, written))
  {
    hide InsertAt, MidRenumber;
    LiftedAbove(stages);
    RenumberSafe(stages, id, written);
  }

  lemma RenumberEntry(stages: seq<Stage>, id: Id, written: set<nat>, i: nat)
    requires i <= |stages|
    ensures var mid := MidRenumber(stages, id, written); var at := InsertAt(Lifted(stages));
      && |mid| == |stages| + 1 == |Lifted(stages)| + 1
      && mid[i] == if i in written then Some(i) else if i == at then None
                   else Some(Lifted(stages)[if i < at then i else i - 1].position)
  {
    hide InsertAt;
  }

  // After the first phase every position is beyond those the second assigns.
  lemma LiftedAbove(stages: seq<Stage>)
    requires Ascending(stages) && forall i :: 0 <= i < |stages| ==> stages[i].position >= 0
    ensures |Lifted(stages)| == |stages|
    ensures forall i :: 0 <= i < |stages| ==> Lifted(stages)[i].position > |stages|
    ensures forall i, j :: 0 <= i < j < |stages| ==> Lifted(stages)[i].position < Lifted(stages)[j].position
  {
    if stages != [] {
      LastIsLargest(stages);
    }
  }

  // From the shifted rows the last write leads to the final rows.
  lemma PhasesMeet(stages: seq<Stage>, id: Id, all: set<nat>)
    requires forall i: nat :: i <= |stages| ==> i in all
    ensures
      && MidShift(stages, {}) == seq(|stages|, i requires 0 <= i < |stages| => stages[i].position)
      && MidShift(stages, all) == seq(|stages|, i requires 0 <= i < |stages| => Lifted(stages)[i].position)
      && MidRenumber(stages, id, all) == seq(|stages| + 1, i requires 0 <= i <= |stages| => Some(Renumbered(stages, id)[i].position))
  {
    LiftedInsertAt(stages, Lifted(stages));
    hide InsertAt;
  }

  // Without non-negative positions a write in the first phase can clash.
  lemma NegativePositionsClash()
    ensures var stages := [Stage(1, -4, 1, Open), Stage(2, -3, 1, Open)];
      Ascending(stages) && !Distinct(MidShift(stages, {1}))
  {
    var stages := [Stage(1, -4, 1, Open), Stage(2, -3, 1, Open)];
    var mid := MidShift(stages, {1});
    assert mid[0] == mid[1];
  }

  // ----- what a deletion answers -----

  // The refusals in their order; otherwise exactly the row of the stage goes,
  // and another open stage remains.
  lemma DeletionIs(stages: seq<Stage>, id: Id, expected: nat, inUse: bool)
    requires DistinctIds(stages)
    ensures var (after, error) := Deletion(stages, id, expected, inUse);
      && (error.Some? ==> after == stages)
      && (error == Some(NotFound) <==> forall i :: 0 <= i < |stages| ==> stages[i].id != id)
      && forall i :: At(stages, i, id) ==>
           && (error == Some(StaleVersion) <==> stages[i].version != expected)
           && (error == Some(NotOpen) <==> stages[i].version == expected && stages[i].kind != Open)
           && (error == Some(InUse) <==> stages[i].version == expected && stages[i].kind == Open && inUse)
           && (error == Some(LastOpen) <==> stages[i].version == expected && stages[i].kind == Open && !inUse && OnlyOpen(stages, i))
           && (error == None ==> after == stages[..i] + stages[i + 1..])
  {
    hide OpenCount;
    forall i | At(stages, i, id) && stages[i].kind == Open ensures OpenCount(stages) <= 1 <==> OnlyOpen(stages, i) {
      OpenCountOne(stages, i);
    }
  }

  ghost predicate OnlyOpen(stages: seq<Stage>, i: int) {
    forall j :: 0 <= j < |stages| && j != i ==> stages[j].kind != Open
  }

  lemma {:induction false} OpenCountOne(stages: seq<Stage>, i: nat)
    requires i < |stages| && stages[i].kind == Open
    ensures OpenCount(stages) >= 1 && (OpenCount(stages) == 1 <==> OnlyOpen(stages, i))
  {
    if i == 0 {
      NoneOpen(stages[1..]);
      assert (forall j :: 0 <= j < |stages[1..]| ==> stages[1..][j].kind != Open) <==> OnlyOpen(stages, 0) by {
        assert forall j :: 0 <= j < |stages[1..]| ==> stages[1..][j] == stages[j + 1];
        assert forall j :: 0 < j < |stages| ==> stages[j] == stages[1..][j - 1];
      }
    } else {
      OpenCountOne(stages[1..], i - 1);
      assert forall j :: 0 <= j < |stages[1..]| ==> stages[1..][j] == stages[j + 1];
      assert forall j :: 0 < j < |stages| ==> stages[j] == stages[1..][j - 1];
    }
  }

  lemma {:induction false} NoneOpen(stages: seq<Stage>)
    ensures OpenCount(stages) == 0 <==> forall j :: 0 <= j < |stages| ==> stages[j].kind != Open
  {
    if stages != [] {
      NoneOpen(stages[1..]);
      assert forall j :: 0 < j < |stages| ==> stages[j] == stages[1..][j - 1];
      assert forall j :: 0 <= j < |stages[1..]| ==> stages[1..][j] == stages[j + 1];
    }
  }

  // ----- over every run -----

  datatype Op = Create(id: Id) | Delete(id: Id, expected: nat, inUse: bool)

  function Step(stages: seq<Stage>, op: Op): seq<Stage> {
    match op
    case Create(id) => if |stages| >= MAX_STAGES then stages else Renumbered(stages, id)
    case Delete(id, expected, inUse) => Deletion(stages, id, expected, inUse).0
  }

  function Run(start: seq<Stage>, ops: seq<Op>): seq<Stage> {
    if ops == [] then start else Step(Run(start, ops[..|ops| - 1]), ops[|ops| - 1])
  }

  // Ids of new stages are new.
  ghost predicate FreshIds(start: seq<Stage>, ops: seq<Op>) {
    forall i :: 0 <= i < |ops| && ops[i].Create? ==>
      forall k :: 0 <= k < |Run(start, ops[..i])| ==> Run(start, ops[..i])[k].id != ops[i].id
  }

  lemma CreateKeepsValid(stages: seq<Stage>, id: Id)
    requires Valid(stages) && |stages| < MAX_STAGES && forall i :: 0 <= i < |stages| ==> stages[i].id != id
    ensures Valid(Renumbered(stages, id))
  {
    hide Renumbered, InsertAt, DistinctIds, OpenFirst, HasOpen;
    InsertedBeforeClosed(stages);
    RenumberedFacts(stages, id);
    var after, at := Renumbered(stages, id), InsertAt(stages);
    forall i | 0 <= i < |after| && i != at
      ensures var k := if i < at then i else i - 1; after[i].kind == stages[k].kind && after[i].id == stages[k].id
    {
      assert After(stages, if i < at then i else i - 1) == i;
    }
    InsertedIds(stages, after, at, id);
    InsertedKinds(stages, after, at);
    OpenAt(after, at);
  }

  lemma OpenAt(stages: seq<Stage>, i: nat)
    requires i < |stages| && stages[i].kind == Open
    ensures HasOpen(stages)
  {
  }

  lemma InsertedIds(stages: seq<Stage>, after: seq<Stage>, at: nat, id: Id)
    requires DistinctIds(stages) && at <= |stages| && |after| == |stages| + 1 && after[at].id == id
    requires forall i :: 0 <= i < |stages| ==> stages[i].id != id
    requires forall i :: 0 <= i < |after| && i != at ==> after[i].id == stages[if i < at then i else i - 1].id
    ensures DistinctIds(after)
  {
  }

  lemma InsertedKinds(stages: seq<Stage>, after: seq<Stage>, at: nat)
    requires OpenFirst(stages) && at <= |stages| && |after| == |stages| + 1 && after[at].kind == Open
    requires forall i :: 0 <= i < at ==> stages[i].kind == Open
    requires at < |stages| ==> stages[at].kind != Open
    requires forall i :: 0 <= i < |after| && i != at ==> after[i].kind == stages[if i < at then i else i - 1].kind
    ensures OpenFirst(after)
  {
    forall j | at < j < |after| ensures after[j].kind != Open {
      assert after[j].kind == stages[j - 1].kind;
      ClosedBehind(stages, at, j - 1);
    }
  }

  lemma ClosedBehind(stages: seq<Stage>, i: nat, j: nat)
    requires OpenFirst(stages) && i <= j < |stages| && stages[i].kind != Open
    ensures stages[j].kind != Open
  {
  }

  lemma {:induction false} TwoOpen(stages: seq<Stage>, i: nat)
    requires i < |stages| && OpenCount(stages) > 1
    ensures HasOpen(stages[..i] + stages[i + 1..])
  {
    var rest := stages[..i] + stages[i + 1..];
    if i == 0 {
      var k := SomeOpen(stages[1..]);
      assert rest[k].kind == Open;
    } else if stages[0].kind == Open {
      assert rest[0].kind == Open;
    } else {
      TwoOpen(stages[1..], i - 1);
      var fewer := stages[1..][..i - 1] + stages[1..][i..];
      var k :| 0 <= k < |fewer| && fewer[k].kind == Open;
      assert rest[k + 1] == fewer[k];
    }
  }

  lemma SomeOpen(stages: seq<Stage>) returns (k: nat)
    requires OpenCount(stages) > 0
    ensures k < |stages| && stages[k].kind == Open
  {
    if stages[0].kind == Open {
      k := 0;
    } else {
      k := SomeOpen(stages[1..]);
      k := k + 1;
    }
  }

  lemma DeleteKeepsValid(stages: seq<Stage>, id: Id, expected: nat, inUse: bool)
    requires Valid(stages)
    ensures Valid(Deletion(stages, id, expected, inUse).0)
  {
    if Deletion(stages, id, expected, inUse).1.None? {
      var i := Find(stages, id);
      TwoOpen(stages, i);
      hide Find, HasOpen, OpenCount;
    }
  }

  // Adding and deleting stages in any order keeps positions unique and
  // non-negative, open stages before closed ones, and at least one open stage.
  lemma {:induction false} StagesStayValid(start: seq<Stage>, ops: seq<Op>)
    requires Valid(start) && FreshIds(start, ops)
    ensures Valid(Run(start, ops))
  {
    if ops != [] {
      var front, last := ops[..|ops| - 1], ops[|ops| - 1];
      forall i | 0 <= i < |front| && front[i].Create?
        ensures forall k :: 0 <= k < |Run(start, front[..i])| ==> Run(start, front[..i])[k].id != front[i].id
      {
        assert front[i] == ops[i] && front[..i] == ops[..i];
      }
      StagesStayValid(start, front);
      var stages := Run(start, front);
      match last {
        case Create(id) =>
          if |stages| < MAX_STAGES {
            CreateKeepsValid(stages, id);
          }
        case Delete(id, expected, inUse) => DeleteKeepsValid(stages, id, expected, inUse);
      }
    }
  }
}
