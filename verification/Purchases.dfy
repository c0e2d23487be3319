// The schedule of the next expected purchase of a deal
// (backend/app/api/crm.py, backend/app/integrations/purchases.py).
module Purchases {
  import opened Prelude

  type Id = nat

  const WEEK: int := 7 * 86400

  datatype ScheduleStatus = Active | Completed | Cancelled

  datatype TaskStatus = Open | Finished | Dropped

  datatype Schedule = Schedule(
    deal: Id, scheduledFor: int, remindAt: int, contact: Option<Id>, assignee: Id,
    status: ScheduleStatus, task: Option<Id>, enqueuedAt: Option<int>, completedAt: Option<int>, version: nat)

  datatype Task = Task(deal: Id, contact: Option<Id>, assignee: Id, dueAt: int, remindAt: int, status: TaskStatus, version: nat)

  // purchase.due_soon
  datatype Event = Event(schedule: Id, task: Id, availableAt: int, processedAt: Option<int>)

  datatype Deal = Deal(assignee: Option<Id>, date: Option<int>, deleted: bool, version: nat)

  // made lists, for the proofs only, which task was made for which schedule.
  datatype Db = Db(
    deals: map<Id, Deal>, schedules: map<Id, Schedule>, tasks: map<Id, Task>, events: seq<Event>,
    next: Id, made: seq<(Id, Id)>)

  datatype TaskError = NoSchedule | NotActive | MissingTask

  // ----- keeping the schedule aligned with the deal -----

  predicate ActiveFor(db: Db, k: Id, deal: Id) {
    k in db.schedules && db.schedules[k].deal == deal && db.schedules[k].status == Active
  }

  predicate Occurrence(db: Db, k: Id, deal: Id, date: int) {
    k in db.schedules && db.schedules[k].deal == deal && db.schedules[k].scheduledFor == date
  }

  // What a query for the active schedules of a deal may return, in any order.
  ghost predicate ActiveRows(db: Db, deal: Id, rows: seq<Id>) {
    Distinct(rows) && forall k :: k in rows <==> ActiveFor(db, k, deal)
  }

  function SetSchedule(db: Db, k: Id, s: Schedule): Db {
    db.(schedules := db.schedules[k := s])
  }

  function Stopped(s: Schedule): Schedule {
    s.(status := Cancelled, version := s.version + 1)
  }

  // create_purchase_schedule: insert unless this occurrence exists
  function Scheduled(db: Db, deal: Id, contact: Option<Id>, assignee: Id, date: int): Db {
    if exists k :: k in db.schedules && Occurrence(db, k, deal, date) then db
    else SetSchedule(db, db.next, Schedule(deal, date, date - WEEK, contact, assignee, Active, None, None, None, 1))
         .(next := db.next + 1)
  }

  function OpenTask(db: Db, s: Schedule): Option<Id> {
    if s.task.Some? && s.task.value in db.tasks && db.tasks[s.task.value].status == Open then s.task else None
  }

  function Realigned(db: Db, k: Id, contact: Option<Id>, assignee: Id): Db
    requires k in db.schedules
  {
    var task := OpenTask(db, db.schedules[k]);
    var db' := SetSchedule(db, k, db.schedules[k].(contact := contact, assignee := assignee));
    if task.None? || db.tasks[task.value].assignee == assignee then db'
    else db'.(tasks := db.tasks[task.value := db.tasks[task.value].(assignee := assignee, version := db.tasks[task.value].version + 1)])
  }

  function StoppedRows(db: Db, rows: seq<Id>): Db
    requires forall k :: k in rows ==> k in db.schedules
    decreases |rows|
  {
    if rows == [] then db
    else StoppedRows(SetSchedule(db, rows[0], Stopped(db.schedules[rows[0]])), rows[1..])
  }

  // None: the employee may not touch the task of the schedule.
  function AlignedRows(db: Db, deal: Id, date: int, contact: Option<Id>, assignee: Id, required: Option<Id>, rows: seq<Id>): Option<Db>
    requires forall k :: k in rows ==> k in db.schedules
    decreases |rows|
  {
    if rows == [] then Some(Scheduled(db, deal, contact, assignee, date))
    else
      var k := rows[0];
      var s := db.schedules[k];
      if s.scheduledFor != date then
        AlignedRows(SetSchedule(db, k, Stopped(s)), deal, date, contact, assignee, required, rows[1..])
      else
        var task := OpenTask(db, s);
        if task.Some? && required.Some? && db.tasks[task.value].assignee != required.value then None
        else Some(Realigned(db, k, contact, assignee))
  }

  // _sync_purchase_schedule
  function Synced(db: Db, deal: Id, contact: Option<Id>, user: Id, required: Option<Id>, rows: seq<Id>): Option<Db>
    requires deal in db.deals && forall k :: k in rows ==> k in db.schedules
  {
    var d := db.deals[deal];
    if d.date.None? then Some(StoppedRows(db, rows))
    else AlignedRows(db, deal, d.date.value, contact, if d.assignee.Some? then d.assignee.value else user, required, rows)
  }

  // ----- the task of a schedule -----

  function TaskFor(db: Db, k: Id, now: int): (Db, Option<TaskError>) {
    if k !in db.schedules then (db, Some(NoSchedule))
    else
      var s := db.schedules[k];
      if s.status != Active then (db, Some(NotActive))
      else if s.task.Some? then (db, if s.task.value in db.tasks then None else Some(MissingTask))
      else
        var t := db.next;
        (SetSchedule(db, k, s.(task := Some(t), enqueuedAt := Some(now), version := s.version + 1))
         .(tasks := db.tasks[t := Task(s.deal, s.contact, s.assignee, s.scheduledFor, s.remindAt, Open, 1)],
           events := db.events + [Event(k, t, s.remindAt, None)],
           next := db.next + 1, made := db.made + [(k, t)]), None)
  }

  // ----- deletions -----

  function ProcessedEvents(events: seq<Event>, ks: set<Id>, now: int): seq<Event> {
    seq(|events|, i requires 0 <= i < |events| =>
      if events[i].schedule in ks && events[i].processedAt.None? then events[i].(processedAt := Some(now)) else events[i])
  }

  function DroppedTasks(schedules: map<Id, Schedule>, tasks: map<Id, Task>, ks: set<Id>): map<Id, Task> {
    map t | t in tasks ::
      if (exists k :: k in ks && k in schedules && schedules[k].task == Some(t)) && tasks[t].status == Open
      then tasks[t].(status := Dropped, version := tasks[t].version + 1) else tasks[t]
  }

  function ActiveSet(db: Db, deal: Id): set<Id> {
    set k | k in db.schedules && ActiveFor(db, k, deal)
  }

  // delete_deal, behind its checks
  function DealDeleted(db: Db, deal: Id, now: int): Db
    requires deal in db.deals
  {
    var ks := ActiveSet(db, deal);
    db.(tasks := DroppedTasks(db.schedules, db.tasks, ks),
        schedules := map k | k in db.schedules :: if k in ks then Stopped(db.schedules[k]).(completedAt := Some(now)) else db.schedules[k],
        events := ProcessedEvents(db.events, ks, now),
        deals := db.deals[deal := db.deals[deal].(deleted := true, version := db.deals[deal].version + 1)])
  }

  predicate HasTask(db: Db, k: Id, t: Id) {
    k in db.schedules && db.schedules[k].task == Some(t)
  }

  // delete_task, behind its checks; the task key is unique, so at most one row.
  function TaskDeleted(db: Db, t: Id, now: int): Db {
    var ks := set k | k in db.schedules && HasTask(db, k, t);
    db.(tasks := db.tasks - {t},
        schedules := map k | k in db.schedules ::
          if k in ks then Stopped(db.schedules[k]).(task := None, completedAt := Some(now)) else db.schedules[k],
        events := ProcessedEvents(db.events, ks, now))
  }

  // Deleting a deal drops the open tasks of its active schedules, cancels and
  // completes these schedules, and settles their pending events; all else stays.
  lemma DeletionWrites(db: Db, deal: Id, now: int)
    requires deal in db.deals
    ensures var t := DealDeleted(db, deal, now);
      && t.tasks.Keys == db.tasks.Keys
      && (forall x :: x in db.tasks ==>
            t.tasks[x] ==
            (if db.tasks[x].status == Open && TaskOfActive(db, deal, x)
            then db.tasks[x].(status := Dropped, version := db.tasks[x].version + 1) else db.tasks[x]))
      && t.schedules.Keys == db.schedules.Keys
      && (forall k :: k in db.schedules ==>
            t.schedules[k] ==
            (if ActiveFor(db, k, deal)
            then db.schedules[k].(status := Cancelled, completedAt := Some(now), version := db.schedules[k].version + 1) else db.schedules[k]))
      && |t.events| == |db.events|
      && (forall i :: 0 <= i < |db.events| ==>
            t.events[i] ==
            (if ActiveFor(db, db.events[i].schedule, deal) && db.events[i].processedAt.None?
            then db.events[i].(processedAt := Some(now)) else db.events[i]))
  {
    var ks := ActiveSet(db, deal);
    forall x: Id ensures TaskOfActive(db, deal, x) <==> exists k :: k in ks && k in db.schedules && db.schedules[k].task == Some(x) {
      if k :| ActiveFor(db, k, deal) && db.schedules[k].task == Some(x) {
        assert k in ks;
      }
    }
    hide TaskOfActive;
  }

  lemma DeletionKeeps(db: Db, deal: Id, now: int)
    requires deal in db.deals
    ensures var t := DealDeleted(db, deal, now);
      && t.deals == db.deals[deal := db.deals[deal].(deleted := true, version := db.deals[deal].version + 1)]
      && t.next == db.next && t.made == db.made
  {
  }

  ghost predicate TaskOfActive(db: Db, deal: Id, x: Id) {
    exists k :: ActiveFor(db, k, deal) && db.schedules[k].task == Some(x)
  }

  // Deleting a task cancels and completes the schedule it belongs to and settles
  // the pending event of that schedule; all else stays.
  lemma TaskDeletionWrites(db: Db, x: Id, now: int)
    ensures var t := TaskDeleted(db, x, now);
      && t.deals == db.deals && t.tasks == db.tasks - {x} && t.next == db.next && t.made == db.made
      && t.schedules.Keys == db.schedules.Keys
      && (forall k :: k in db.schedules ==>
            t.schedules[k] ==
            (if db.schedules[k].task == Some(x)
            then db.schedules[k].(status := Cancelled, task := None, completedAt := Some(now), version := db.schedules[k].version + 1)
            else db.schedules[k]))
      && |t.events| == |db.events|
      && (forall i :: 0 <= i < |db.events| ==>
            t.events[i] ==
            (if HasTask(db, db.events[i].schedule, x) && db.events[i].processedAt.None?
            then db.events[i].(processedAt := Some(now)) else db.events[i]))
  {
    assert forall k :: k in db.schedules ==> (HasTask(db, k, x) <==> db.schedules[k].task == Some(x));
  }

  // ----- the requests -----

  // A field that a request sets, or leaves alone.
  datatype Change<T> = Keep | Set(value: T)

  datatype Op =
    | CreateDeal(assignee: Option<Id>, date: Option<int>, contact: Option<Id>, user: Id, employee: bool)
    | UpdateDeal(deal: Id, expected: nat, newDate: Change<Option<int>>, newAssignee: Change<Option<Id>>, contactsSet: bool,
                 contact: Option<Id>, user: Id, employee: bool, rows: seq<Id>)
    | DeleteDeal(deal: Id, expected: nat, now: int)
    | EditTask(task: Id, status: TaskStatus, worker: Id)
    | DeleteTask(task: Id, expected: nat, now: int)
    | MakeTask(schedule: Id, now: int)

  function New<T>(change: Change<T>, old': T): T {
    if change.Keep? then old' else change.value
  }

  function Required(user: Id, employee: bool): Option<Id> {
    if employee then Some(user) else None
  }

  predicate Live(db: Db, deal: Id, expected: nat) {
    deal in db.deals && !db.deals[deal].deleted && db.deals[deal].version == expected
  }

  // The deal as an update request changes it, before its schedule follows.
  function Edited(db: Db, op: Op): Db
    requires op.UpdateDeal? && Live(db, op.deal, op.expected)
  {
    var d := db.deals[op.deal];
    db.(deals := db.deals[op.deal := d.(date := New(op.newDate, d.date), assignee := New(op.newAssignee, d.assignee), version := op.expected + 1)])
  }

  predicate Syncs(op: Op)
    requires op.UpdateDeal?
  {
    op.newDate.Set? || op.newAssignee.Set? || op.contactsSet
  }

  // What Step asks of an update.
  predicate KnownRows(db: Db, op: Op) {
    op.UpdateDeal? ==> forall k :: k in op.rows ==> k in db.schedules
  }

  // A request that fails leaves the database as it was.
  function Step(db: Db, op: Op): Db
    requires KnownRows(db, op)
  {
    match op
    case CreateDeal(assignee, date, contact, user, employee) =>
      var deal := db.next;
      var made := db.(deals := db.deals[deal := Deal(if employee then Some(user) else assignee, date, false, 1)], next := deal + 1);
      var synced := Synced(made, deal, contact, user, Required(user, employee), []);
      if synced.Some? then synced.value else db
    case UpdateDeal(deal, expected, _, _, _, contact, user, employee, rows) =>
      if !Live(db, deal, expected) then db
      else if !Syncs(op) then Edited(db, op)
      else
        var synced := Synced(Edited(db, op), deal, contact, user, Required(user, employee), rows);
        if synced.Some? then synced.value else db
    case DeleteDeal(deal, expected, now) => if Live(db, deal, expected) then DealDeleted(db, deal, now) else db
    case EditTask(t, status, assignee) =>
      if t in db.tasks then db.(tasks := db.tasks[t := db.tasks[t].(status := status, assignee := assignee, version := db.tasks[t].version + 1)])
      else db
    case DeleteTask(t, expected, now) =>
      if t in db.tasks && db.tasks[t].version == expected then TaskDeleted(db, t, now) else db
    case MakeTask(k, now) => TaskFor(db, k, now).0
  }

  // ----- what always holds -----

  // One row per occurrence: the unique key of the table.
  ghost predicate OccurrencesUnique(db: Db) {
    forall j, k :: j in db.schedules && k in db.schedules
      && db.schedules[j].deal == db.schedules[k].deal && db.schedules[j].scheduledFor == db.schedules[k].scheduledFor
      ==> j == k
  }

  // An active schedule is that of a live deal, for the deal's own date.
  ghost predicate ActiveAligned(db: Db) {
    forall k :: k in db.schedules && db.schedules[k].status == Active ==>
      var deal := db.schedules[k].deal;
      deal in db.deals && !db.deals[deal].deleted && db.deals[deal].date == Some(db.schedules[k].scheduledFor)
  }

  // The date of a live deal has been scheduled, whatever became of it.
  ghost predicate DatesScheduled(db: Db) {
    forall deal :: deal in db.deals && !db.deals[deal].deleted && db.deals[deal].date.Some? ==>
      HasOccurrence(db, deal, db.deals[deal].date.value)
  }

  ghost predicate HasOccurrence(db: Db, deal: Id, date: int) {
    exists k :: Occurrence(db, k, deal, date)
  }

  // Tasks and events are made together, and once for each schedule.
  ghost predicate TasksOnce(db: Db) {
    && (forall i, j :: 0 <= i < j < |db.made| ==> db.made[i].0 != db.made[j].0 && db.made[i].1 != db.made[j].1)
    && |db.events| == |db.made|
    && (forall i :: 0 <= i < |db.made| ==> db.events[i].schedule == db.made[i].0 && db.events[i].task == db.made[i].1)
    && (forall i :: 0 <= i < |db.made| ==> db.made[i].0 in db.schedules && db.made[i].1 < db.next)
    && (forall i :: 0 <= i < |db.made| && db.schedules[db.made[i].0].status == Active ==>
          db.schedules[db.made[i].0].task == Some(db.made[i].1))
    && (forall k :: k in db.schedules && db.schedules[k].task.Some? ==> MadeTask(db, k, db.schedules[k].task.value))
  }

  ghost predicate MadeTask(db: Db, k: Id, t: Id) {
    t in db.tasks && (k, t) in db.made
  }

  ghost predicate IdsFresh(db: Db) {
    && (forall k :: k in db.deals ==> k < db.next) && (forall k :: k in db.schedules ==> k < db.next && db.schedules[k].deal in db.deals)
    && (forall k :: k in db.tasks ==> k < db.next)
  }

  ghost predicate Inv(db: Db) {
    OccurrencesUnique(db) && ActiveAligned(db) && DatesScheduled(db) && TasksOnce(db) && IdsFresh(db)
  }

  // Rows stay, keep deal and date, and what stopped being active stays so.
  ghost predicate Onward(s: Db, t: Db) {
    && (forall k :: k in s.schedules ==> k in t.schedules)
    && (forall k :: k in s.schedules ==> t.schedules[k].deal == s.schedules[k].deal)
    && (forall k :: k in s.schedules ==> t.schedules[k].scheduledFor == s.schedules[k].scheduledFor)
    && (forall k :: k in s.schedules && s.schedules[k].status != Active ==> t.schedules[k].status != Active)
    && s.made <= t.made
  }

  // ----- the rows as the program changes them -----

  class Tables {
    var deals: map<Id, Deal>
    var schedules: map<Id, Schedule>
    var tasks: map<Id, Task>
    var events: seq<Event>
    var next: Id
    ghost var made: seq<(Id, Id)>

    ghost function Contents(): Db
      reads this
    {
      Db(deals, schedules, tasks, events, next, made)
    }

    // create_purchase_schedule; whether a row was inserted
    method CreateSchedule(deal: Id, contact: Option<Id>, assignee: Id, date: int) returns (inserted: bool)
      modifies this
      ensures Contents() == Scheduled(old(Contents()), deal, contact, assignee, date)
      ensures inserted <==> !exists k :: k in old(schedules) && Occurrence(old(Contents()), k, deal, date)
    {
      inserted := !exists k :: k in schedules && schedules[k].deal == deal && schedules[k].scheduledFor == date;
      assert inserted <==> !exists k :: k in schedules && Occurrence(Contents(), k, deal, date) by {
        assert forall k :: k in schedules ==> (Occurrence(Contents(), k, deal, date) <==> schedules[k].deal == deal && schedules[k].scheduledFor == date);
      }
      if inserted {
        schedules := schedules[next := Schedule(deal, date, date - WEEK, contact, assignee, Active, None, None, None, 1)];
        next := next + 1;
      }
    }

    // _sync_purchase_schedule; false when the request is refused, and then the
    // transaction is undone
    method Sync(deal: Id, contact: Option<Id>, user: Id, required: Option<Id>, active: seq<Id>) returns (ok: bool)
      requires deal in deals && forall k :: k in active ==> k in schedules
      modifies this
      ensures var r := Synced(old(Contents()), deal, contact, user, required, active);
        ok == r.Some? && Contents() == if ok then r.value else old(Contents())
    {
      hide StoppedRows, AlignedRows;
      if deals[deal].date.None? {
        Stop(active);
        return true;
      }
      var before := schedules;
      ok := Align(deal, deals[deal].date.value, contact, if deals[deal].assignee.Some? then deals[deal].assignee.value else user, required, active);
      if !ok {
        schedules := before;
      }
    }

    method Stop(active: seq<Id>)
      requires forall k :: k in active ==> k in schedules
      modifies this`schedules
      ensures Contents() == StoppedRows(old(Contents()), active)
    {
      ghost var was := Contents();
      for i := 0 to |active|
        invariant forall k :: k in active ==> k in schedules
        invariant StoppedRows(was, active) == StoppedRows(Contents(), active[i..])
      {
        assert active[i..][0] == active[i] && active[i..][1..] == active[i + 1..];
        var s := schedules[active[i]];
        schedules := schedules[active[i] := s.(status := Cancelled, version := s.version + 1)];
      }
    }

    method Align(deal: Id, date: int, contact: Option<Id>, assignee: Id, required: Option<Id>, active: seq<Id>) returns (ok: bool)
      requires forall k :: k in active ==> k in schedules
      modifies this
      ensures var r := AlignedRows(old(Contents()), deal, date, contact, assignee, required, active);
        if r.Some? then ok && Contents() == r.value
        else !ok && Contents() == old(Contents()).(schedules := schedules)
    {
      ghost var was := Contents();
      for i := 0 to |active|
        invariant forall k :: k in active ==> k in schedules
        invariant Contents() == was.(schedules := schedules)
        invariant AlignedRows(was, deal, date, contact, assignee, required, active)
               == AlignedRows(Contents(), deal, date, contact, assignee, required, active[i..])
      {
        assert active[i..][0] == active[i] && active[i..][1..] == active[i + 1..];
        hide Realigned, Scheduled;
        if schedules[active[i]].scheduledFor != date {
          schedules := schedules[active[i] := Stopped(schedules[active[i]])];
        } else {
          ok := Realign(active[i], contact, assignee, required);
          return;
        }
      }
      var _ := CreateSchedule(deal, contact, assignee, date);
      return true;
    }

    // The schedule that is already right follows contact and assignee of its
    // deal, and so does its task while that is open.
    method Realign(k: Id, contact: Option<Id>, assignee: Id, required: Option<Id>) returns (ok: bool)
      requires k in schedules
      modifies this
      ensures var task := OpenTask(old(Contents()), old(schedules)[k]);
        ok == !(task.Some? && required.Some? && old(tasks)[task.value].assignee != required.value)
      ensures Contents() == if ok then Realigned(old(Contents()), k, contact, assignee) else old(Contents())
    {
      var s := schedules[k];
      if s.task.Some? && s.task.value in tasks && tasks[s.task.value].status == Open {
        var task := tasks[s.task.value];
        if required.Some? && task.assignee != required.value {
          return false;
        }
        if task.assignee != assignee {
          tasks := tasks[s.task.value := task.(assignee := assignee, version := task.version + 1)];
        }
      }
      schedules := schedules[k := s.(contact := contact, assignee := assignee)];
      return true;
    }

    // delete_deal, behind its checks; active are the locked rows
    method DeleteDeal(deal: Id, active: seq<Id>, now: int)
      requires deal in deals && ActiveRows(Contents(), deal, active)
      modifies this
      ensures Contents() == DealDeleted(old(Contents()), deal, now)
      ensures tasks.Keys == old(tasks.Keys)
      ensures forall x :: x in tasks ==>
        tasks[x] ==
        (if old(tasks)[x].status == Open && TaskOfActive(old(Contents()), deal, x)
         then old(tasks)[x].(status := Dropped, version := old(tasks)[x].version + 1) else old(tasks)[x])
      ensures |events| == |old(events)|
      ensures forall i :: 0 <= i < |events| ==>
        events[i] ==
        (if ActiveFor(old(Contents()), old(events)[i].schedule, deal) && old(events)[i].processedAt.None?
         then old(events)[i].(processedAt := Some(now)) else old(events)[i])
    {
      hide TaskOfActive, DealDeleted, ActiveFor, Stopped;
      ghost var was := Contents();
      ActiveKnown(was, deal, active);
      var ks := set k | k in active;
      var ids := set k | k in active && schedules[k].task.Some? :: schedules[k].task.value;
      TasksOfActive(was, deal, active, ids);
      CancelTasks(ids);
      Complete(active, now);
      Settle(ks, now);
      deals := deals[deal := deals[deal].(deleted := true, version := deals[deal].version + 1)];
      IsDealDeleted(was, deal, now, active, ids, Contents());
    }

    static lemma ActiveKnown(was: Db, deal: Id, active: seq<Id>)
      requires ActiveRows(was, deal, active)
      ensures Distinct(active) && forall k :: k in active ==> k in was.schedules
    {
    }

    static lemma TasksOfActive(was: Db, deal: Id, active: seq<Id>, ids: set<Id>)
      requires ActiveRows(was, deal, active) && forall k :: k in active ==> k in was.schedules
      requires ids == set k | k in active && was.schedules[k].task.Some? :: was.schedules[k].task.value
      ensures forall x: Id :: x in ids <==> TaskOfActive(was, deal, x)
    {
      forall x: Id | TaskOfActive(was, deal, x) ensures x in ids {
        var k :| ActiveFor(was, k, deal) && was.schedules[k].task == Some(x);
        assert k in active;
      }
    }

    // The tables that the deletion leaves.
    static lemma IsDealDeleted(was: Db, deal: Id, now: int, active: seq<Id>, ids: set<Id>, t: Db)
      requires deal in was.deals && ActiveRows(was, deal, active) && forall x: Id :: x in ids <==> TaskOfActive(was, deal, x)
      requires t.deals == was.deals[deal := was.deals[deal].(deleted := true, version := was.deals[deal].version + 1)]
      requires t.next == was.next && t.made == was.made
      requires t.schedules.Keys == was.schedules.Keys && t.tasks.Keys == was.tasks.Keys && |t.events| == |was.events|
      requires forall k :: k in t.schedules ==>
        t.schedules[k] == if k in active then Stopped(was.schedules[k]).(completedAt := Some(now)) else was.schedules[k]
      requires forall x :: x in t.tasks ==>
        t.tasks[x] ==
        (if was.tasks[x].status == Open && x in ids
         then was.tasks[x].(status := Dropped, version := was.tasks[x].version + 1) else was.tasks[x])
      requires forall i :: 0 <= i < |t.events| ==>
        t.events[i] ==
        (if was.events[i].schedule in active && was.events[i].processedAt.None?
         then was.events[i].(processedAt := Some(now)) else was.events[i])
      ensures t == DealDeleted(was, deal, now)
      ensures forall x :: x in t.tasks ==>
        t.tasks[x] ==
        (if was.tasks[x].status == Open && TaskOfActive(was, deal, x)
         then was.tasks[x].(status := Dropped, version := was.tasks[x].version + 1) else was.tasks[x])
      ensures forall i :: 0 <= i < |t.events| ==>
        t.events[i] ==
        (if ActiveFor(was, was.events[i].schedule, deal) && was.events[i].processedAt.None?
         then was.events[i].(processedAt := Some(now)) else was.events[i])
    {
      hide DealDeleted, TaskOfActive, ActiveFor;
      DeletionWrites(was, deal, now);
      DeletionKeeps(was, deal, now);
      var expected := DealDeleted(was, deal, now);
      SameMaps(t.tasks, expected.tasks);
      SameMaps(t.schedules, expected.schedules);
      assert t.events == expected.events;
    }

    static lemma SameMaps<T>(m: map<Id, T>, n: map<Id, T>)
      requires m.Keys == n.Keys && forall k :: k in m ==> m[k] == n[k]
      ensures m == n
    {
    }

    // The open tasks among the given ids are dropped.
    method CancelTasks(ids: set<Id>)
      modifies this`tasks
      ensures tasks.Keys == old(tasks.Keys)
      ensures forall x :: x in tasks ==>
        tasks[x] ==
        (if old(tasks)[x].status == Open && x in ids
         then old(tasks)[x].(status := Dropped, version := old(tasks)[x].version + 1) else old(tasks)[x])
    {
      var left := set x | x in ids && x in tasks && tasks[x].status == Open;
      while left != {}
        invariant tasks.Keys == old(tasks.Keys)
        invariant forall x :: x in left ==> x in ids && x in tasks && tasks[x] == old(tasks)[x] && tasks[x].status == Open
        invariant forall x :: x in tasks && x !in left ==>
          tasks[x] ==
          (if old(tasks)[x].status == Open && x in ids
           then old(tasks)[x].(status := Dropped, version := old(tasks)[x].version + 1) else old(tasks)[x])
        decreases left
      {
        var x :| x in left;
        var task := tasks[x];
        tasks := tasks[x := task.(status := Dropped, version := task.version + 1)];
        left := left - {x};
      }
    }

    // The pending events of the given schedules are settled.
    method Settle(ks: set<Id>, now: int)
      modifies this`events
      ensures |events| == |old(events)|
      ensures forall i :: 0 <= i < |events| ==>
        events[i] ==
        (if old(events)[i].schedule in ks && old(events)[i].processedAt.None?
         then old(events)[i].(processedAt := Some(now)) else old(events)[i])
    {
      for n := 0 to |events|
        invariant |events| == |old(events)|
        invariant forall i :: n <= i < |events| ==> events[i] == old(events)[i]
        invariant forall i :: 0 <= i < n ==>
          events[i] ==
          (if old(events)[i].schedule in ks && old(events)[i].processedAt.None?
           then old(events)[i].(processedAt := Some(now)) else old(events)[i])
      {
        if events[n].schedule in ks && events[n].processedAt.None? {
          events := events[n := events[n].(processedAt := Some(now))];
        }
      }
    }

    // delete_task, behind its checks; owner is the schedule of the task, if any
    method DeleteTask(x: Id, owner: Option<Id>, now: int)
      requires x in tasks
      requires forall k: Id :: HasTask(Contents(), k, x) <==> owner == Some(k)
      modifies this
      ensures Contents() == TaskDeleted(old(Contents()), x, now)
      ensures x !in tasks && forall y :: y in old(tasks) && y != x ==> y in tasks && tasks[y] == old(tasks)[y]
      ensures |events| == |old(events)|
      ensures forall i :: 0 <= i < |events| ==>
        events[i] ==
        (if owner == Some(old(events)[i].schedule) && old(events)[i].processedAt.None?
         then old(events)[i].(processedAt := Some(now)) else old(events)[i])
    {
      hide ProcessedEvents, TaskDeleted;
      ghost var was := Contents();
      TaskDeletionWrites(was, x, now);
      if owner.Some? {
        var k := owner.value;
        assert HasTask(was, k, x);
        var s := schedules[k];
        schedules := schedules[k := s.(status := Cancelled, task := None, completedAt := Some(now), version := s.version + 1)];
        Settle({k}, now);
      }
      tasks := tasks - {x};
      ghost var t := TaskDeleted(was, x, now);
      assert forall k :: k in was.schedules ==> (HasTask(was, k, x) <==> was.schedules[k].task == Some(x));
      assert schedules == t.schedules && events == t.events;
    }

    method Complete(active: seq<Id>, now: int)
      requires Distinct(active) && forall k :: k in active ==> k in schedules
      modifies this`schedules
      ensures schedules.Keys == old(schedules.Keys)
      ensures forall k :: k in schedules ==>
        schedules[k] == if k in active then Stopped(old(schedules)[k]).(completedAt := Some(now)) else old(schedules)[k]
    {
      for i := 0 to |active|
        invariant schedules.Keys == old(schedules.Keys)
        invariant forall k :: k in schedules ==>
          schedules[k] == if k in active[..i] then Stopped(old(schedules)[k]).(completedAt := Some(now)) else old(schedules)[k]
      {
        var k := active[i];
        assert k in active && k !in active[..i];
        var s := schedules[k];
        schedules := schedules[k := s.(status := Cancelled, completedAt := Some(now), version := s.version + 1)];
        assert active[..i + 1] == active[..i] + [k];
      }
      assert active[..|active|] == active;
    }

    // ensure_purchase_task; the task and whether it was made
    method EnsureTask(k: Id, now: int) returns (task: Option<Id>, created: bool, error: Option<TaskError>)
      modifies this
      ensures (Contents(), error) == TaskFor(old(Contents()), k, now)
      ensures error.None? ==> k in schedules && task == schedules[k].task && task.Some? && task.value in tasks
      ensures created <==> error.None? && old(schedules)[k].task.None?
    {
      if k !in schedules {
        return None, false, Some(NoSchedule);
      }
      var s := schedules[k];
      if s.status != Active {
        return None, false, Some(NotActive);
      }
      if s.task.Some? {
        return s.task, false, if s.task.value in tasks then None else Some(MissingTask);
      }
      var t := next;
      tasks := tasks[t := Task(s.deal, s.contact, s.assignee, s.scheduledFor, s.remindAt, Open, 1)];
      schedules := schedules[k := s.(task := Some(t), enqueuedAt := Some(now), version := s.version + 1)];
      events := events + [Event(k, t, s.remindAt, None)];
      next := next + 1;
      made := made + [(k, t)];
      return Some(t), true, None;
    }
  }

  // ----- the invariant is kept -----

  // Between the change of the deal and the end of the sync, everything holds
  // but the alignment of this deal, whose rows are given.
  ghost predicate Pending(db: Db, deal: Id, rows: seq<Id>) {
    && OccurrencesUnique(db) && TasksOnce(db) && IdsFresh(db)
    && deal in db.deals && !db.deals[deal].deleted
    && |rows| <= 1 && ActiveRows(db, deal, rows)
    && (forall k :: k in db.schedules && db.schedules[k].status == Active && db.schedules[k].deal != deal ==>
          var other := db.schedules[k].deal;
          other in db.deals && !db.deals[other].deleted && db.deals[other].date == Some(db.schedules[k].scheduledFor))
    && (forall other :: other in db.deals && other != deal && !db.deals[other].deleted && db.deals[other].date.Some? ==>
          HasOccurrence(db, other, db.deals[other].date.value))
  }

  // One row changes what is not its occurrence, and does not become active.
  lemma RowChanged(db: Db, k: Id, s: Schedule, deal: Id, rows: seq<Id>)
    requires k in db.schedules && OccurrencesUnique(db) && TasksOnce(db) && IdsFresh(db)
    requires s.deal == db.schedules[k].deal && s.scheduledFor == db.schedules[k].scheduledFor && s.task == db.schedules[k].task
    requires s.status == Active ==> db.schedules[k].status == Active
    ensures var t := SetSchedule(db, k, s);
      && OccurrencesUnique(t) && TasksOnce(t) && IdsFresh(t) && Onward(db, t)
      && (forall other, date :: HasOccurrence(db, other, date) ==> HasOccurrence(t, other, date))
  {
    hide TasksOnce, HasOccurrence;
    RowChangedTasks(db, k, s);
    OccurrencesStay(db, SetSchedule(db, k, s));
  }

  lemma RowChangedTasks(db: Db, k: Id, s: Schedule)
    requires k in db.schedules && TasksOnce(db) && s.task == db.schedules[k].task
    requires s.status == Active ==> db.schedules[k].status == Active
    ensures TasksOnce(SetSchedule(db, k, s))
  {
    var t := SetSchedule(db, k, s);
    forall j | j in t.schedules && t.schedules[j].task.Some? ensures MadeTask(t, j, t.schedules[j].task.value) {
      assert MadeTask(db, j, db.schedules[j].task.value);
    }
    hide MadeTask;
  }

  lemma OccurrencesStay(s: Db, t: Db)
    requires Onward(s, t)
    ensures forall deal, date :: HasOccurrence(s, deal, date) ==> HasOccurrence(t, deal, date)
  {
    forall deal, date | HasOccurrence(s, deal, date) ensures HasOccurrence(t, deal, date) {
      var k :| Occurrence(s, k, deal, date);
      assert Occurrence(t, k, deal, date);
    }
  }

  lemma StopRow(db: Db, deal: Id, k: Id)
    requires Pending(db, deal, [k]) && k in db.schedules
    ensures var t := SetSchedule(db, k, Stopped(db.schedules[k])); Pending(t, deal, []) && Onward(db, t)
  {
    hide OccurrencesUnique, TasksOnce, IdsFresh, HasOccurrence;
    assert k in [k] && ActiveFor(db, k, deal);
    var t := SetSchedule(db, k, Stopped(db.schedules[k]));
    RowChanged(db, k, Stopped(db.schedules[k]), deal, []);
    forall j ensures !ActiveFor(t, j, deal) {
      assert ActiveFor(db, j, deal) <==> j in [k];
    }
  }

  lemma InsertRow(db: Db, deal: Id, contact: Option<Id>, assignee: Id, date: int)
    requires Pending(db, deal, []) && db.deals[deal].date == Some(date)
    ensures var t := Scheduled(db, deal, contact, assignee, date);
      Inv(t) && Onward(db, t)
      && ((exists k :: ActiveFor(t, k, deal)) <==> !HasOccurrence(db, deal, date))
  {
    var t := Scheduled(db, deal, contact, assignee, date);
    NoneActive(db, deal);
    if k :| k in db.schedules && Occurrence(db, k, deal, date) {
      assert HasOccurrence(db, deal, date);
      PendingIsInv(db, deal);
    } else {
      InsertNew(db, deal, contact, assignee, date);
    }
  }

  lemma InsertNew(db: Db, deal: Id, contact: Option<Id>, assignee: Id, date: int)
    requires Pending(db, deal, []) && db.deals[deal].date == Some(date)
    requires !exists k :: k in db.schedules && Occurrence(db, k, deal, date)
    ensures var t := Scheduled(db, deal, contact, assignee, date);
      Inv(t) && Onward(db, t) && ActiveFor(t, db.next, deal) && !HasOccurrence(db, deal, date)
  {
    var t := Scheduled(db, deal, contact, assignee, date);
    var row := Schedule(deal, date, date - WEEK, contact, assignee, Active, None, None, None, 1);
    assert t == db.(schedules := db.schedules[db.next := row], next := db.next + 1);
    InsertKeepsTasks(db, t);
    InsertKeepsKeys(db, t, row);
    InsertAligns(db, t, row);
    OccurrencesStay(db, t);
    hide TasksOnce, Scheduled, IdsFresh, OccurrencesUnique, ActiveAligned;
    assert Occurrence(t, db.next, deal, date);
    assert HasOccurrence(t, deal, date) && !HasOccurrence(db, deal, date);
    hide HasOccurrence;
  }

  lemma InsertKeepsKeys(db: Db, t: Db, row: Schedule)
    requires OccurrencesUnique(db) && IdsFresh(db) && row.deal in db.deals
    requires forall k :: k in db.schedules ==> !Occurrence(db, k, row.deal, row.scheduledFor)
    requires t == db.(schedules := db.schedules[db.next := row], next := db.next + 1)
    ensures OccurrencesUnique(t) && IdsFresh(t) && Onward(db, t)
  {
    forall j, k | j in t.schedules && k in t.schedules
      && t.schedules[j].deal == t.schedules[k].deal && t.schedules[j].scheduledFor == t.schedules[k].scheduledFor
      ensures j == k
    {
      assert j != db.next ==> !Occurrence(db, j, row.deal, row.scheduledFor);
      assert k != db.next ==> !Occurrence(db, k, row.deal, row.scheduledFor);
    }
  }

  lemma InsertAligns(db: Db, t: Db, row: Schedule)
    requires Pending(db, row.deal, []) && db.deals[row.deal].date == Some(row.scheduledFor)
    requires t == db.(schedules := db.schedules[db.next := row], next := db.next + 1)
    ensures ActiveAligned(t)
  {
    NoneActive(db, row.deal);
    hide TasksOnce, IdsFresh, OccurrencesUnique, HasOccurrence;
    forall j | j in db.schedules && db.schedules[j].status == Active ensures db.schedules[j].deal != row.deal {
      assert !ActiveFor(db, j, row.deal);
    }
  }

  lemma InsertKeepsTasks(db: Db, t: Db)
    requires TasksOnce(db) && IdsFresh(db)
    requires t.tasks == db.tasks && t.events == db.events && t.made == db.made && t.next == db.next + 1
    requires t.schedules.Keys == db.schedules.Keys + {db.next} && t.schedules[db.next].task.None?
    requires forall k :: k in db.schedules ==> t.schedules[k] == db.schedules[k]
    ensures TasksOnce(t)
  {
    forall j | j in t.schedules && t.schedules[j].task.Some? ensures MadeTask(t, j, t.schedules[j].task.value) {
      assert MadeTask(db, j, db.schedules[j].task.value);
    }
  }

  lemma RealignRow(db: Db, deal: Id, k: Id, contact: Option<Id>, assignee: Id)
    requires Pending(db, deal, [k]) && k in db.schedules && db.deals[deal].date == Some(db.schedules[k].scheduledFor)
    ensures var t := Realigned(db, k, contact, assignee); Inv(t) && Onward(db, t) && ActiveFor(t, k, deal)
  {
    hide TasksOnce, OccurrencesUnique, IdsFresh, ActiveAligned, DatesScheduled, Realigned, Pending, SetSchedule, Onward;
    var s := db.schedules[k].(contact := contact, assignee := assignee);
    var m, t := SetSchedule(db, k, s), Realigned(db, k, contact, assignee);
    RealignedTasks(db, k, contact, assignee);
    KeepRow(db, deal, k, s);
    SameButTasks(m, t);
    OnwardTwice(db, m, t);
  }

  lemma KeepRow(db: Db, deal: Id, k: Id, s: Schedule)
    requires Pending(db, deal, [k]) && k in db.schedules && db.deals[deal].date == Some(db.schedules[k].scheduledFor)
    requires s.deal == db.schedules[k].deal && s.scheduledFor == db.schedules[k].scheduledFor && s.task == db.schedules[k].task
    requires s.status == db.schedules[k].status
    ensures var m := SetSchedule(db, k, s); Inv(m) && Onward(db, m) && ActiveFor(m, k, deal)
  {
    hide TasksOnce, OccurrencesUnique, IdsFresh, ActiveAligned, Onward, HasOccurrence;
    assert k in [k] && ActiveFor(db, k, deal);
    var m := SetSchedule(db, k, s);
    RowChanged(db, k, s, deal, [k]);
    RowAligned(db, deal, k, s);
    HasIt(m, k);
  }

  lemma HasIt(db: Db, k: Id)
    requires k in db.schedules
    ensures HasOccurrence(db, db.schedules[k].deal, db.schedules[k].scheduledFor)
  {
    assert Occurrence(db, k, db.schedules[k].deal, db.schedules[k].scheduledFor);
  }

  lemma RealignedTasks(db: Db, k: Id, contact: Option<Id>, assignee: Id)
    requires k in db.schedules
    ensures var m := SetSchedule(db, k, db.schedules[k].(contact := contact, assignee := assignee));
      var t := Realigned(db, k, contact, assignee);
      t == m.(tasks := t.tasks) && t.tasks.Keys == m.tasks.Keys
  {
  }

  lemma RowAligned(db: Db, deal: Id, k: Id, s: Schedule)
    requires Pending(db, deal, [k]) && k in db.schedules && db.deals[deal].date == Some(db.schedules[k].scheduledFor)
    requires s.deal == db.schedules[k].deal && s.scheduledFor == db.schedules[k].scheduledFor && s.status == db.schedules[k].status
    ensures ActiveAligned(SetSchedule(db, k, s))
  {
    hide TasksOnce, OccurrencesUnique, IdsFresh, HasOccurrence;
    forall j | j in db.schedules && db.schedules[j].status == Active && db.schedules[j].deal == deal ensures j == k {
      assert ActiveFor(db, j, deal) <==> j in [k];
    }
  }

  // Editing tasks in place disturbs nothing.
  lemma SameButTasks(s: Db, t: Db)
    requires t == s.(tasks := t.tasks) && t.tasks.Keys == s.tasks.Keys
    ensures TasksOnce(s) ==> TasksOnce(t)
    ensures IdsFresh(s) ==> IdsFresh(t)
    ensures OccurrencesUnique(s) ==> OccurrencesUnique(t)
    ensures ActiveAligned(s) ==> ActiveAligned(t)
    ensures DatesScheduled(s) ==> DatesScheduled(t)
    ensures Onward(s, t) && forall k, deal :: ActiveFor(s, k, deal) == ActiveFor(t, k, deal)
  {
    forall deal, date | HasOccurrence(s, deal, date) ensures HasOccurrence(t, deal, date) {
      var k :| Occurrence(s, k, deal, date);
      assert Occurrence(t, k, deal, date);
    }
    if TasksOnce(s) {
      forall j | j in t.schedules && t.schedules[j].task.Some? ensures MadeTask(t, j, t.schedules[j].task.value) {
        assert MadeTask(s, j, s.schedules[j].task.value);
      }
    }
  }

  // The sync restores alignment, and ends with an active schedule unless the
  // date's occurrence exists and is no longer active.
  lemma SyncAligns(db: Db, deal: Id, contact: Option<Id>, user: Id, required: Option<Id>, rows: seq<Id>)
    requires Pending(db, deal, rows)
    ensures var r := Synced(db, deal, contact, user, required, rows); r.Some? ==>
      && Inv(r.value) && Onward(db, r.value)
      && (db.deals[deal].date.Some? ==>
            ((exists k :: ActiveFor(r.value, k, deal)) <==> !SpentOccurrence(db, deal, db.deals[deal].date.value)))
      && (db.deals[deal].date.None? ==> forall k :: !ActiveFor(r.value, k, deal))
  {
    var d := db.deals[deal];
    if rows == [] {
      NoneActive(db, deal);
      if d.date.Some? {
        InsertRow(db, deal, contact, if d.assignee.Some? then d.assignee.value else user, d.date.value);
        SpentOrNone(db, deal, d.date.value);
      } else {
        PendingIsInv(db, deal);
      }
    } else {
      OneRow(db, deal, rows, contact, user, required);
    }
  }

  // The occurrence exists but is no longer active.
  ghost predicate SpentOccurrence(db: Db, deal: Id, date: int) {
    exists k :: Occurrence(db, k, deal, date) && db.schedules[k].status != Active
  }

  lemma NoneActive(db: Db, deal: Id)
    requires ActiveRows(db, deal, [])
    ensures forall k :: !ActiveFor(db, k, deal)
  {
    forall k ensures !ActiveFor(db, k, deal) {
      assert ActiveFor(db, k, deal) <==> k in [];
    }
  }

  lemma SpentOrNone(db: Db, deal: Id, date: int)
    requires forall k :: !ActiveFor(db, k, deal)
    ensures HasOccurrence(db, deal, date) <==> SpentOccurrence(db, deal, date)
  {
    if HasOccurrence(db, deal, date) {
      var k :| Occurrence(db, k, deal, date);
      assert !ActiveFor(db, k, deal);
    }
  }

  lemma PendingIsInv(db: Db, deal: Id)
    requires Pending(db, deal, [])
    requires db.deals[deal].date.Some? ==> HasOccurrence(db, deal, db.deals[deal].date.value)
    ensures Inv(db) && Onward(db, db)
  {
    NoneActive(db, deal);
    hide TasksOnce, OccurrencesUnique, IdsFresh, HasOccurrence;
    forall j | j in db.schedules && db.schedules[j].status == Active
      ensures var other := db.schedules[j].deal;
        other in db.deals && !db.deals[other].deleted && db.deals[other].date == Some(db.schedules[j].scheduledFor)
    {
      assert !ActiveFor(db, j, deal);
    }
  }

  // The row is stopped, follows the deal, or is replaced by one for its date.
  lemma OneRow(db: Db, deal: Id, rows: seq<Id>, contact: Option<Id>, user: Id, required: Option<Id>)
    requires Pending(db, deal, rows) && rows != []
    ensures var r := Synced(db, deal, contact, user, required, rows); r.Some? ==>
      && Inv(r.value) && Onward(db, r.value)
      && (db.deals[deal].date.Some? ==>
            ((exists k :: ActiveFor(r.value, k, deal)) <==> !SpentOccurrence(db, deal, db.deals[deal].date.value)))
      && (db.deals[deal].date.None? ==> forall k :: !ActiveFor(r.value, k, deal))
  {
    var k := rows[0];
    assert rows == [k] && k in rows && ActiveFor(db, k, deal);
    hide Pending, Inv, Onward, HasOccurrence, SpentOccurrence;
    var date := db.deals[deal].date;
    OneRowSynced(db, deal, k, contact, user, required);
    hide Synced, SetSchedule, Scheduled, Realigned;
    if date.None? {
      StopOnly(db, deal, k);
    } else if db.schedules[k].scheduledFor == date.value {
      RealignRow(db, deal, k, contact, AssigneeOf(db, deal, user));
      NotSpent(db, deal, k);
    } else {
      RescheduleRow(db, deal, k, contact, AssigneeOf(db, deal, user), date.value);
    }
  }

  function AssigneeOf(db: Db, deal: Id, user: Id): Id
    requires deal in db.deals
  {
    if db.deals[deal].assignee.Some? then db.deals[deal].assignee.value else user
  }

  lemma OneRowSynced(db: Db, deal: Id, k: Id, contact: Option<Id>, user: Id, required: Option<Id>)
    requires deal in db.deals && k in db.schedules
    ensures var r := Synced(db, deal, contact, user, required, [k]);
      var stopped := SetSchedule(db, k, Stopped(db.schedules[k]));
      match db.deals[deal].date
      case None => r == Some(stopped)
      case Some(date) =>
        if db.schedules[k].scheduledFor == date then
          r.Some? ==> r.value == Realigned(db, k, contact, AssigneeOf(db, deal, user))
        else r == Some(Scheduled(stopped, deal, contact, AssigneeOf(db, deal, user), date))
  {
    hide Scheduled, Realigned, OpenTask;
    assert [k][1..] == [];
    var stopped, assignee := SetSchedule(db, k, Stopped(db.schedules[k])), AssigneeOf(db, deal, user);
    assert StoppedRows(stopped, []) == stopped;
    assert forall date :: AlignedRows(stopped, deal, date, contact, assignee, required, []) == Some(Scheduled(stopped, deal, contact, assignee, date));
  }

  lemma StopOnly(db: Db, deal: Id, k: Id)
    requires Pending(db, deal, [k]) && k in db.schedules && db.deals[deal].date.None?
    ensures var t := SetSchedule(db, k, Stopped(db.schedules[k])); Inv(t) && Onward(db, t) && forall j :: !ActiveFor(t, j, deal)
  {
    hide Inv, Onward, OccurrencesUnique, TasksOnce, IdsFresh, HasOccurrence;
    var t := SetSchedule(db, k, Stopped(db.schedules[k]));
    StopRow(db, deal, k);
    NoneActive(t, deal);
    PendingIsInv(t, deal);
  }

  lemma RescheduleRow(db: Db, deal: Id, k: Id, contact: Option<Id>, assignee: Id, date: int)
    requires Pending(db, deal, [k]) && k in db.schedules
    requires db.deals[deal].date == Some(date) && db.schedules[k].scheduledFor != date
    ensures var r := Scheduled(SetSchedule(db, k, Stopped(db.schedules[k])), deal, contact, assignee, date);
      && Inv(r) && Onward(db, r)
      && ((exists j :: ActiveFor(r, j, deal)) <==> !SpentOccurrence(db, deal, date))
  {
    var t := SetSchedule(db, k, Stopped(db.schedules[k]));
    var r := Scheduled(t, deal, contact, assignee, date);
    StopRow(db, deal, k);
    NoneActive(t, deal);
    InsertRow(t, deal, contact, assignee, date);
    SpentOrNone(t, deal, date);
    SpentElsewhere(db, t, deal, k, date);
    OnwardTwice(db, t, r);
    hide Scheduled, SetSchedule, Pending, Inv, Onward, HasOccurrence, SpentOccurrence;
  }

  lemma OnwardTwice(s: Db, t: Db, u: Db)
    requires Onward(s, t) && Onward(t, u)
    ensures Onward(s, u)
  {
  }

  lemma NotSpent(db: Db, deal: Id, k: Id)
    requires Pending(db, deal, [k]) && ActiveFor(db, k, deal)
    ensures !SpentOccurrence(db, deal, db.schedules[k].scheduledFor)
  {
  }

  lemma SpentElsewhere(db: Db, t: Db, deal: Id, k: Id, date: int)
    requires k in db.schedules && db.schedules[k].scheduledFor != date
    requires t == SetSchedule(db, k, Stopped(db.schedules[k]))
    ensures SpentOccurrence(t, deal, date) <==> SpentOccurrence(db, deal, date)
  {
    if SpentOccurrence(db, deal, date) {
      var j :| Occurrence(db, j, deal, date) && db.schedules[j].status != Active;
      assert Occurrence(t, j, deal, date);
    }
    if SpentOccurrence(t, deal, date) {
      var j :| Occurrence(t, j, deal, date) && t.schedules[j].status != Active;
      assert Occurrence(db, j, deal, date);
    }
  }

  // A deal has at most one active schedule.
  lemma AtMostOneActive(db: Db, deal: Id, j: Id, k: Id)
    requires OccurrencesUnique(db) && ActiveAligned(db) && ActiveFor(db, j, deal) && ActiveFor(db, k, deal)
    ensures j == k
  {
  }

  lemma AtMostOneRow(db: Db, deal: Id, rows: seq<Id>)
    requires OccurrencesUnique(db) && ActiveAligned(db) && ActiveRows(db, deal, rows)
    ensures |rows| <= 1
  {
    if |rows| > 1 {
      assert rows[0] in rows && rows[1] in rows;
      AtMostOneActive(db, deal, rows[0], rows[1]);
    }
  }

  lemma EditedPending(db: Db, op: Op)
    requires Inv(db) && op.UpdateDeal? && Live(db, op.deal, op.expected) && ActiveRows(db, op.deal, op.rows)
    ensures Pending(Edited(db, op), op.deal, op.rows)
    ensures Onward(db, Edited(db, op))
    ensures !Syncs(op) ==> Inv(Edited(db, op))
  {
    AtMostOneRow(db, op.deal, op.rows);
    var t := Edited(db, op);
    forall k ensures ActiveFor(t, k, op.deal) <==> ActiveFor(db, k, op.deal) {
    }
    SameButDeals(db, t);
    hide TasksOnce, OccurrencesUnique, IdsFresh, HasOccurrence;
  }

  lemma SameButDeals(s: Db, t: Db)
    requires t == s.(deals := t.deals) && t.deals.Keys == s.deals.Keys
    ensures TasksOnce(s) ==> TasksOnce(t)
    ensures IdsFresh(s) ==> IdsFresh(t)
    ensures OccurrencesUnique(s) ==> OccurrencesUnique(t)
    ensures forall deal, date :: HasOccurrence(s, deal, date) <==> HasOccurrence(t, deal, date)
  {
    forall deal, date ensures HasOccurrence(s, deal, date) <==> HasOccurrence(t, deal, date) {
      if k :| Occurrence(s, k, deal, date) {
        assert Occurrence(t, k, deal, date);
      }
      if k :| Occurrence(t, k, deal, date) {
        assert Occurrence(s, k, deal, date);
      }
    }
    if TasksOnce(s) {
      forall j | j in t.schedules && t.schedules[j].task.Some? ensures MadeTask(t, j, t.schedules[j].task.value) {
        assert MadeTask(s, j, s.schedules[j].task.value);
      }
    }
  }

  // ----- the other operations -----

  lemma MakeTaskKept(db: Db, k: Id, now: int)
    requires Inv(db)
    ensures var t := TaskFor(db, k, now).0; Inv(t) && Onward(db, t)
  {
    hide HasOccurrence, TasksOnce, OccurrencesUnique, Onward;
    var t := TaskFor(db, k, now).0;
    if t == db {
      Stays(db);
    } else {
      MakeTaskKeys(db, k, now);
      OccurrencesStay(db, t);
      TaskMadeOnce(db, k, now);
    }
  }

  lemma Stays(db: Db)
    ensures Onward(db, db)
  {
  }

  lemma MakeTaskKeys(db: Db, k: Id, now: int)
    requires OccurrencesUnique(db)
    ensures var t := TaskFor(db, k, now).0; OccurrencesUnique(t) && Onward(db, t)
  {
  }

  lemma TaskMadeOnce(db: Db, k: Id, now: int)
    requires TasksOnce(db) && IdsFresh(db) && TaskFor(db, k, now).0 != db
    ensures TasksOnce(TaskFor(db, k, now).0)
  {
    var t := TaskFor(db, k, now).0;
    MadeOnce(db, k);
    AddTask(db, t, k);
  }

  lemma AddTask(db: Db, t: Db, k: Id)
    requires TasksOnce(db) && IdsFresh(db) && k in db.schedules && forall i :: 0 <= i < |db.made| ==> db.made[i].0 != k
    requires t.made == db.made + [(k, db.next)] && t.next == db.next + 1
    requires |t.events| == |db.events| + 1 && t.events[..|db.events|] == db.events
    requires t.events[|db.events|].schedule == k && t.events[|db.events|].task == db.next
    requires t.schedules.Keys == db.schedules.Keys && t.schedules[k].task == Some(db.next)
    requires forall j :: j in db.schedules && j != k ==> t.schedules[j] == db.schedules[j]
    requires t.tasks.Keys == db.tasks.Keys + {db.next}
    ensures TasksOnce(t)
  {
    assert forall i :: 0 <= i < |db.made| ==> t.made[i] == db.made[i] && t.events[i] == db.events[i];
    assert t.made[|db.made|] == (k, db.next);
    forall j | j in t.schedules && t.schedules[j].task.Some? ensures MadeTask(t, j, t.schedules[j].task.value) {
      if j != k {
        assert MadeTask(db, j, db.schedules[j].task.value);
      }
    }
    hide MadeTask;
  }

  // An active schedule without a task never had one.
  lemma MadeOnce(db: Db, k: Id)
    requires TasksOnce(db) && k in db.schedules && db.schedules[k].status == Active && db.schedules[k].task.None?
    ensures forall i :: 0 <= i < |db.made| ==> db.made[i].0 != k
  {
  }

  // Some rows stopped, perhaps losing their task; no row is added.
  ghost predicate RowsStopped(s: Db, t: Db) {
    && t.schedules.Keys == s.schedules.Keys
    && (forall k :: k in s.schedules ==>
          t.schedules[k].deal == s.schedules[k].deal && t.schedules[k].scheduledFor == s.schedules[k].scheduledFor)
    && (forall k :: k in s.schedules ==> t.schedules[k] == s.schedules[k] || t.schedules[k].status != Active)
    && (forall k :: k in s.schedules && t.schedules[k].task.Some? ==>
          t.schedules[k].task == s.schedules[k].task && t.schedules[k].task.value in t.tasks)
    && t.made == s.made && t.next == s.next && t.deals.Keys == s.deals.Keys && t.tasks.Keys <= s.tasks.Keys
    && |t.events| == |s.events|
    && (forall i :: 0 <= i < |s.events| ==> t.events[i].schedule == s.events[i].schedule && t.events[i].task == s.events[i].task)
  }

  lemma StoppedKeepsKeys(s: Db, t: Db)
    requires OccurrencesUnique(s) && IdsFresh(s) && RowsStopped(s, t)
    ensures OccurrencesUnique(t) && IdsFresh(t) && Onward(s, t)
    ensures forall deal, date :: HasOccurrence(s, deal, date) ==> HasOccurrence(t, deal, date)
  {
    OccurrencesStay(s, t);
  }

  lemma StoppedKeepsTasks(s: Db, t: Db)
    requires TasksOnce(s) && RowsStopped(s, t)
    ensures TasksOnce(t)
  {
    forall k | k in t.schedules && t.schedules[k].task.Some? ensures MadeTask(t, k, t.schedules[k].task.value) {
      assert MadeTask(s, k, s.schedules[k].task.value);
    }
  }

  lemma DeleteDealKept(db: Db, deal: Id, now: int)
    requires Inv(db) && deal in db.deals
    ensures var t := DealDeleted(db, deal, now); Inv(t) && Onward(db, t) && forall k :: !ActiveFor(t, k, deal)
  {
    hide RowsStopped, TasksOnce, OccurrencesUnique, IdsFresh, ActiveAligned, DatesScheduled, DealDeleted, Onward;
    DealRowsStopped(db, deal, now);
    StoppedKeepsKeys(db, DealDeleted(db, deal, now));
    StoppedKeepsTasks(db, DealDeleted(db, deal, now));
    DeletedAligns(db, deal, now);
  }

  lemma DeletedAligns(db: Db, deal: Id, now: int)
    requires ActiveAligned(db) && DatesScheduled(db) && deal in db.deals
    requires forall other, date :: HasOccurrence(db, other, date) ==> HasOccurrence(DealDeleted(db, deal, now), other, date)
    ensures var t := DealDeleted(db, deal, now); ActiveAligned(t) && DatesScheduled(t) && forall k :: !ActiveFor(t, k, deal)
  {
    hide HasOccurrence, DroppedTasks, ProcessedEvents;
    var t := DealDeleted(db, deal, now);
    assert forall k :: k in t.schedules && t.schedules[k].status == Active ==> !ActiveFor(db, k, deal);
  }

  lemma DealRowsStopped(db: Db, deal: Id, now: int)
    requires deal in db.deals && TasksOnce(db)
    ensures RowsStopped(db, DealDeleted(db, deal, now))
  {
    forall k | k in db.schedules && db.schedules[k].task.Some? ensures db.schedules[k].task.value in db.tasks {
      assert MadeTask(db, k, db.schedules[k].task.value);
    }
    hide TasksOnce;
  }

  lemma DeleteTaskKept(db: Db, t: Id, now: int)
    requires Inv(db)
    ensures var after := TaskDeleted(db, t, now); Inv(after) && Onward(db, after)
  {
    var after := TaskDeleted(db, t, now);
    TaskRowsStopped(db, t, now);
    hide RowsStopped, TasksOnce, OccurrencesUnique, IdsFresh, HasOccurrence, ProcessedEvents;
    StoppedKeepsKeys(db, after);
    StoppedKeepsTasks(db, after);
  }

  lemma TaskRowsStopped(db: Db, t: Id, now: int)
    requires TasksOnce(db)
    ensures RowsStopped(db, TaskDeleted(db, t, now))
  {
    forall k | k in db.schedules && db.schedules[k].task.Some? ensures db.schedules[k].task.value in db.tasks {
      assert MadeTask(db, k, db.schedules[k].task.value);
    }
    hide TasksOnce;
    assert forall k :: k in db.schedules ==> (HasTask(db, k, t) <==> db.schedules[k].task == Some(t));
  }

  lemma CreateDealKept(db: Db, op: Op)
    requires Inv(db) && op.CreateDeal?
    ensures Inv(Step(db, op)) && Onward(db, Step(db, op))
  {
    hide Step, Synced, Inv, Onward;
    var d := Deal(if op.employee then Some(op.user) else op.assignee, op.date, false, 1);
    CreateUnfolds(db, op, d);
    CreatedKept(db, d, op.contact, op.user, Required(op.user, op.employee));
  }

  lemma CreateUnfolds(db: Db, op: Op, d: Deal)
    requires op.CreateDeal? && d == Deal(if op.employee then Some(op.user) else op.assignee, op.date, false, 1)
    ensures var synced := Synced(db.(deals := db.deals[db.next := d], next := db.next + 1), db.next, op.contact, op.user,
                                 Required(op.user, op.employee), []);
      Step(db, op) == if synced.Some? then synced.value else db
  {
    hide Synced;
  }

  lemma CreatedKept(db: Db, d: Deal, contact: Option<Id>, user: Id, required: Option<Id>)
    requires Inv(db) && !d.deleted
    ensures Onward(db, db)
    ensures var synced := Synced(db.(deals := db.deals[db.next := d], next := db.next + 1), db.next, contact, user, required, []);
      synced.Some? ==> Inv(synced.value) && Onward(db, synced.value)
  {
    var made := db.(deals := db.deals[db.next := d], next := db.next + 1);
    hide Synced;
    NewDealPending(db, d);
    SyncAligns(made, db.next, contact, user, required, []);
    hide Inv, Pending;
    assert Onward(db, made);
  }

  lemma NewDealPending(db: Db, d: Deal)
    requires Inv(db) && !d.deleted
    ensures Pending(db.(deals := db.deals[db.next := d], next := db.next + 1), db.next, [])
  {
    var made := db.(deals := db.deals[db.next := d], next := db.next + 1);
    OccurrencesStay(db, made);
    forall j | j in made.schedules && made.schedules[j].task.Some? ensures MadeTask(made, j, made.schedules[j].task.value) {
      assert MadeTask(db, j, db.schedules[j].task.value);
    }
    hide HasOccurrence;
    forall k ensures !ActiveFor(made, k, db.next) {
      assert k in db.schedules ==> db.schedules[k].deal in db.deals;
    }
  }

  lemma UpdateDealKept(db: Db, op: Op)
    requires Inv(db) && op.UpdateDeal? && ActiveRows(db, op.deal, op.rows)
    ensures Inv(Step(db, op)) && Onward(db, Step(db, op))
  {
    if Live(db, op.deal, op.expected) {
      EditedPending(db, op);
      SyncAligns(Edited(db, op), op.deal, op.contact, op.user, Required(op.user, op.employee), op.rows);
      hide Synced, Inv, Edited, Pending;
    }
  }

  // The rows of an update are those that the database then holds.
  ghost predicate Honest(db: Db, op: Op) {
    op.UpdateDeal? ==> ActiveRows(db, op.deal, op.rows)
  }

  lemma HonestRows(db: Db, op: Op)
    requires Honest(db, op)
    ensures KnownRows(db, op)
  {
    if op.UpdateDeal? {
      forall k | k in op.rows ensures k in db.schedules {
        assert ActiveFor(db, k, op.deal);
      }
    }
  }

  lemma StepKept(db: Db, op: Op)
    requires Inv(db) && Honest(db, op) && KnownRows(db, op)
    ensures Inv(Step(db, op)) && Onward(db, Step(db, op))
  {
    hide Inv;
    match op {
      case CreateDeal(_, _, _, _, _) => CreateDealKept(db, op);
      case UpdateDeal(_, _, _, _, _, _, _, _, _) => UpdateDealKept(db, op);
      case DeleteDeal(deal, expected, now) =>
        if Live(db, deal, expected) {
          DeleteDealKept(db, deal, now);
        }
      case EditTask(t, status, worker) => EditTaskKept(db, op);
      case DeleteTask(t, expected, now) => DeleteTaskKept(db, t, now);
      case MakeTask(k, now) => MakeTaskKept(db, k, now);
    }
  }

  lemma EditTaskKept(db: Db, op: Op)
    requires Inv(db) && op.EditTask?
    ensures Inv(Step(db, op)) && Onward(db, Step(db, op))
  {
    var t := Step(db, op);
    assert t == db.(tasks := t.tasks) && t.tasks.Keys == db.tasks.Keys;
    SameButTasks(db, t);
    hide Step;
  }

  // ----- over every run -----

  const EMPTY := Db(map[], map[], map[], [], 0, [])

  ghost predicate HonestRun(ops: seq<Op>)
    decreases |ops|, 0
  {
    ops == [] || (HonestRun(ops[..|ops| - 1]) && Honest(Run(ops[..|ops| - 1]), ops[|ops| - 1]))
  }

  ghost function Run(ops: seq<Op>): Db
    requires HonestRun(ops)
    decreases |ops|, 1
  {
    if ops == [] then EMPTY
    else
      HonestRows(Run(ops[..|ops| - 1]), ops[|ops| - 1]);
      Step(Run(ops[..|ops| - 1]), ops[|ops| - 1])
  }

  lemma {:induction false} InvRun(ops: seq<Op>)
    requires HonestRun(ops)
    ensures Inv(Run(ops))
  {
    if ops != [] {
      InvRun(ops[..|ops| - 1]);
      HonestRows(Run(ops[..|ops| - 1]), ops[|ops| - 1]);
      StepKept(Run(ops[..|ops| - 1]), ops[|ops| - 1]);
    }
  }

  // At any time a deal has at most one active schedule, for the deal's date and
  // only while the deal lives.
  lemma AtMostOneAndAligned(ops: seq<Op>, deal: Id)
    requires HonestRun(ops)
    ensures forall j, k :: ActiveFor(Run(ops), j, deal) && ActiveFor(Run(ops), k, deal) ==> j == k
    ensures forall k :: ActiveFor(Run(ops), k, deal) ==>
      var db := Run(ops);
      deal in db.deals && !db.deals[deal].deleted && db.deals[deal].date == Some(db.schedules[k].scheduledFor)
  {
    InvRun(ops);
  }

  // A live deal with a date has an active schedule unless the occurrence for
  // that date exists and was cancelled.
  lemma ActiveUnlessSpent(ops: seq<Op>, deal: Id)
    requires HonestRun(ops)
    requires var db := Run(ops); deal in db.deals && !db.deals[deal].deleted && db.deals[deal].date.Some?
    ensures var db := Run(ops);
      (exists k :: ActiveFor(db, k, deal)) <==> !SpentOccurrence(db, deal, db.deals[deal].date.value)
  {
    InvRun(ops);
    var db := Run(ops);
    hide Run, TasksOnce;
    var k :| Occurrence(db, k, deal, db.deals[deal].date.value);
    if db.schedules[k].status == Active {
      assert ActiveFor(db, k, deal);
    }
  }

  // The schedule for the new date is active and has an open task that belongs
  // to somebody else than the employee who sends the request.
  ghost predicate ForeignTask(db: Db, deal: Id, date: int, required: Option<Id>) {
    exists k :: ActiveFor(db, k, deal) && db.schedules[k].scheduledFor == date && Foreign(db, k, required)
  }

  predicate Foreign(db: Db, k: Id, required: Option<Id>)
    requires k in db.schedules
  {
    var task := OpenTask(db, db.schedules[k]);
    task.Some? && required.Some? && db.tasks[task.value].assignee != required.value
  }

  lemma SyncRefusedIff(db: Db, deal: Id, date: int, contact: Option<Id>, assignee: Id, required: Option<Id>, rows: seq<Id>)
    requires |rows| <= 1 && ActiveRows(db, deal, rows) && forall k :: k in rows ==> k in db.schedules
    ensures AlignedRows(db, deal, date, contact, assignee, required, rows).None? <==> ForeignTask(db, deal, date, required)
  {
    hide Scheduled, Realigned, OpenTask;
    if rows == [] {
      NoneActive(db, deal);
    } else {
      var k := rows[0];
      assert rows == [k] && rows[1..] == [];
      assert k in rows && ActiveFor(db, k, deal);
      assert forall j :: ActiveFor(db, j, deal) ==> j in rows;
      var stopped := SetSchedule(db, k, Stopped(db.schedules[k]));
      assert AlignedRows(stopped, deal, date, contact, assignee, required, []) == Some(Scheduled(stopped, deal, contact, assignee, date));
    }
  }

  // What a request that sets a date, or leaves one, will do can be told
  // beforehand: it is refused, and changes nothing, if the task of an active
  // schedule for that date is in the way; otherwise it leaves an active schedule
  // unless that occurrence existed and is no longer active.
  lemma UpdateSchedulesUnlessSpent(db: Db, op: Op)
    requires Inv(db) && op.UpdateDeal? && Syncs(op) && Live(db, op.deal, op.expected) && ActiveRows(db, op.deal, op.rows)
    requires New(op.newDate, db.deals[op.deal].date).Some?
    ensures var date := New(op.newDate, db.deals[op.deal].date).value;
      if ForeignTask(db, op.deal, date, Required(op.user, op.employee)) then Step(db, op) == db
      else (exists k :: ActiveFor(Step(db, op), k, op.deal)) <==> !SpentOccurrence(db, op.deal, date)
  {
    var edited := Edited(db, op);
    EditedPending(db, op);
    SyncAligns(edited, op.deal, op.contact, op.user, Required(op.user, op.employee), op.rows);
    var date := New(op.newDate, db.deals[op.deal].date).value;
    assert edited.deals[op.deal].date == Some(date) && edited.schedules == db.schedules && edited.tasks == db.tasks;
    var synced := Synced(edited, op.deal, op.contact, op.user, Required(op.user, op.employee), op.rows);
    assert Step(db, op) == if synced.Some? then synced.value else db;
    SyncedRefusedIff(edited, op.deal, date, op.contact, op.user, Required(op.user, op.employee), op.rows);
    hide Synced, Inv, Edited, Pending;
    SameSpent(db, edited, op.deal, date);
    SameForeign(db, edited, op.deal, date, Required(op.user, op.employee));
    hide SpentOccurrence, ActiveFor, Step, ForeignTask;
  }

  lemma SyncedRefusedIff(db: Db, deal: Id, date: int, contact: Option<Id>, user: Id, required: Option<Id>, rows: seq<Id>)
    requires Pending(db, deal, rows) && db.deals[deal].date == Some(date)
    ensures Synced(db, deal, contact, user, required, rows).None? <==> ForeignTask(db, deal, date, required)
  {
    hide AlignedRows, ForeignTask;
    SyncRefusedIff(db, deal, date, contact, AssigneeOf(db, deal, user), required, rows);
  }

  lemma SameForeign(s: Db, t: Db, deal: Id, date: int, required: Option<Id>)
    requires s.schedules == t.schedules && s.tasks == t.tasks
    ensures ForeignTask(s, deal, date, required) <==> ForeignTask(t, deal, date, required)
  {
    if k :| ActiveFor(s, k, deal) && s.schedules[k].scheduledFor == date && Foreign(s, k, required) {
      assert ActiveFor(t, k, deal) && Foreign(t, k, required);
    }
    if k :| ActiveFor(t, k, deal) && t.schedules[k].scheduledFor == date && Foreign(t, k, required) {
      assert ActiveFor(s, k, deal) && Foreign(s, k, required);
    }
  }

  lemma SameSpent(s: Db, t: Db, deal: Id, date: int)
    requires s.schedules == t.schedules
    ensures SpentOccurrence(s, deal, date) <==> SpentOccurrence(t, deal, date)
  {
    if k :| Occurrence(s, k, deal, date) && s.schedules[k].status != Active {
      assert Occurrence(t, k, deal, date);
    }
    if k :| Occurrence(t, k, deal, date) && t.schedules[k].status != Active {
      assert Occurrence(s, k, deal, date);
    }
  }

  // What has been cancelled is never active again.
  lemma {:induction false} CancelledForGood(ops: seq<Op>, n: nat, k: Id)
    requires HonestRun(ops) && n <= |ops| && HonestRun(ops[..n])
    requires k in Run(ops[..n]).schedules && Run(ops[..n]).schedules[k].status != Active
    ensures k in Run(ops).schedules && Run(ops).schedules[k].status != Active
    decreases |ops|
  {
    if n < |ops| {
      var front := ops[..|ops| - 1];
      assert front[..n] == ops[..n];
      CancelledForGood(front, n, k);
      InvRun(front);
      HonestRows(Run(front), ops[|ops| - 1]);
      StepKept(Run(front), ops[|ops| - 1]);
    } else {
      assert ops[..n] == ops;
    }
  }

  // Over a whole run a schedule gets at most one task and one due-soon event.
  lemma OneTaskOneEvent(ops: seq<Op>, i: nat, j: nat)
    requires HonestRun(ops)
    ensures var db := Run(ops);
      && |db.events| == |db.made|
      && (i < j < |db.made| ==> db.made[i].0 != db.made[j].0 && db.events[i].schedule != db.events[j].schedule)
      && (i < |db.made| ==> db.events[i].schedule == db.made[i].0 && db.events[i].task == db.made[i].1)
  {
    InvRun(ops);
  }

  // "Exactly one active schedule" fails when a date comes back: A, then B, then A.
  lemma DateThatComesBack() returns (ops: seq<Op>)
    ensures HonestRun(ops)
    ensures var db := Run(ops);
      && 0 in db.deals && !db.deals[0].deleted && db.deals[0].date == Some(100)
      && forall k :: !ActiveFor(db, k, 0)
  {
    hide Step, Honest, Run, HonestRun;
    var a := CreateDeal(None, Some(100), None, 7, false);
    var b := UpdateDeal(0, 1, Set(Some(200)), Keep, false, None, 7, false, [1]);
    var c := UpdateDeal(0, 2, Set(Some(100)), Keep, false, None, 7, false, [2]);
    var first := Db(map[0 := Deal(None, Some(100), false, 1)], map[1 := Row(100, Active, 1)], map[], [], 2, []);
    var second := Db(map[0 := Deal(None, Some(200), false, 2)], map[1 := Row(100, Cancelled, 2), 2 := Row(200, Active, 1)], map[], [], 3, []);
    var third := Db(map[0 := Deal(None, Some(100), false, 3)], map[1 := Row(100, Cancelled, 2), 2 := Row(200, Cancelled, 2)], map[], [], 3, []);
    FirstStep(a, first);
    SecondStep(first, b, second);
    ThirdStep(second, c, third);
    ops := [a, b, c];
    RunOne(a);
    RunSnoc([a], b);
    RunSnoc([a] + [b], c);
    assert [a] + [b] + [c] == ops;
  }

  lemma RunOne(a: Op)
    requires Honest(EMPTY, a) && KnownRows(EMPTY, a)
    ensures HonestRun([a]) && Run([a]) == Step(EMPTY, a)
  {
    hide Step, Honest;
    assert [a][..0] == [];
    assert HonestRun([]) && Run([]) == EMPTY;
  }

  lemma RunSnoc(ops: seq<Op>, a: Op)
    requires HonestRun(ops) && Honest(Run(ops), a) && KnownRows(Run(ops), a)
    ensures HonestRun(ops + [a]) && Run(ops + [a]) == Step(Run(ops), a)
  {
    hide Step, Honest;
    assert (ops + [a])[..|ops|] == ops;
  }

  function Row(date: int, status: ScheduleStatus, version: nat): Schedule {
    Schedule(0, date, date - WEEK, None, 7, status, None, None, None, version)
  }

  lemma FirstStep(a: Op, first: Db)
    requires a == CreateDeal(None, Some(100), None, 7, false)
    requires first == Db(map[0 := Deal(None, Some(100), false, 1)], map[1 := Row(100, Active, 1)], map[], [], 2, [])
    ensures Honest(EMPTY, a) && Step(EMPTY, a) == first
  {
  }

  lemma SecondStep(first: Db, b: Op, second: Db)
    requires first == Db(map[0 := Deal(None, Some(100), false, 1)], map[1 := Row(100, Active, 1)], map[], [], 2, [])
    requires b == UpdateDeal(0, 1, Set(Some(200)), Keep, false, None, 7, false, [1])
    requires second == Db(map[0 := Deal(None, Some(200), false, 2)], map[1 := Row(100, Cancelled, 2), 2 := Row(200, Active, 1)], map[], [], 3, [])
    ensures Honest(first, b) && Step(first, b) == second
  {
    forall k ensures k in [1] <==> ActiveFor(first, k, 0) {
    }
    var stopped := SetSchedule(Edited(first, b), 1, Stopped(Row(100, Active, 1)));
    assert [1][1..] == [];
    assert !exists k :: k in stopped.schedules && Occurrence(stopped, k, 0, 200);
  }

  lemma ThirdStep(second: Db, c: Op, third: Db)
    requires second == Db(map[0 := Deal(None, Some(200), false, 2)], map[1 := Row(100, Cancelled, 2), 2 := Row(200, Active, 1)], map[], [], 3, [])
    requires c == UpdateDeal(0, 2, Set(Some(100)), Keep, false, None, 7, false, [2])
    requires third == Db(map[0 := Deal(None, Some(100), false, 3)], map[1 := Row(100, Cancelled, 2), 2 := Row(200, Cancelled, 2)], map[], [], 3, [])
    ensures Honest(second, c) && Step(second, c) == third
  {
    forall k ensures k in [2] <==> ActiveFor(second, k, 0) {
    }
    var stopped := SetSchedule(Edited(second, c), 2, Stopped(Row(200, Active, 1)));
    assert [2][1..] == [];
    assert Occurrence(stopped, 1, 0, 100);
  }

  // ----- reminders -----

  // Every schedule reminds a week ahead, and its event is due at that time. An
  // active schedule is not completed, and the event of a completed one is settled.
  ghost predicate RemindersOk(db: Db) {
    && (forall k :: k in db.schedules ==> db.schedules[k].remindAt == db.schedules[k].scheduledFor - WEEK)
    && (forall k :: k in db.schedules && db.schedules[k].status == Active ==> db.schedules[k].completedAt.None?)
    && (forall i :: 0 <= i < |db.events| ==> EventDue(db, db.events[i]) && EventSettled(db, db.events[i]))
  }

  ghost predicate EventDue(db: Db, e: Event) {
    e.schedule in db.schedules && e.availableAt == db.schedules[e.schedule].remindAt
  }

  ghost predicate EventSettled(db: Db, e: Event) {
    e.schedule in db.schedules && (db.schedules[e.schedule].completedAt.Some? ==> e.processedAt.Some?)
  }

  // Rows keep their times, and what was settled stays so; a row that is completed
  // has its event settled; new rows and new events have the right times.
  ghost predicate TimesKept(s: Db, t: Db) {
    && (forall k :: k in s.schedules ==> k in t.schedules && t.schedules[k].remindAt == s.schedules[k].remindAt
                                         && t.schedules[k].scheduledFor == s.schedules[k].scheduledFor)
    && (forall k :: k in s.schedules && t.schedules[k].status == Active ==>
          s.schedules[k].status == Active && t.schedules[k].completedAt == s.schedules[k].completedAt)
    && (forall k :: k in t.schedules && k !in s.schedules ==>
          t.schedules[k].remindAt == t.schedules[k].scheduledFor - WEEK
          && (t.schedules[k].status == Active ==> t.schedules[k].completedAt.None?))
    && |s.events| <= |t.events|
    && (forall i :: 0 <= i < |s.events| ==> SameDue(s.events[i], t.events[i]))
    && (forall i :: 0 <= i < |s.events| && s.events[i].schedule in s.schedules ==>
          t.schedules[s.events[i].schedule].completedAt == s.schedules[s.events[i].schedule].completedAt || t.events[i].processedAt.Some?)
    && (forall i :: |s.events| <= i < |t.events| ==> EventDue(t, t.events[i]) && EventSettled(t, t.events[i]))
  }

  predicate SameDue(e: Event, f: Event) {
    f.schedule == e.schedule && f.availableAt == e.availableAt && (e.processedAt.Some? ==> f.processedAt.Some?)
  }

  lemma TimesKeepReminders(s: Db, t: Db)
    requires RemindersOk(s) && TimesKept(s, t)
    ensures RemindersOk(t)
  {
    forall i | 0 <= i < |t.events| ensures EventDue(t, t.events[i]) && EventSettled(t, t.events[i]) {
      if i < |s.events| {
        assert EventDue(s, s.events[i]) && EventSettled(s, s.events[i]) && SameDue(s.events[i], t.events[i]);
      }
    }
  }

  lemma {:induction false} StoppedRowsTimes(db: Db, rows: seq<Id>)
    requires forall k :: k in rows ==> k in db.schedules
    ensures TimesKept(db, StoppedRows(db, rows))
    decreases |rows|
  {
    hide TimesKept, Stopped, SetSchedule;
    if rows == [] {
      TimesSelf(db);
    } else {
      var stopped := SetSchedule(db, rows[0], Stopped(db.schedules[rows[0]]));
      OneRowTimes(db, rows[0]);
      StoppedRowsTimes(stopped, rows[1..]);
      TimesTwice(db, stopped, StoppedRows(stopped, rows[1..]));
    }
  }

  lemma TimesSelf(db: Db)
    ensures TimesKept(db, db)
  {
  }

  lemma OneRowTimes(db: Db, k: Id)
    requires k in db.schedules
    ensures var stopped := SetSchedule(db, k, Stopped(db.schedules[k]));
      TimesKept(db, stopped) && stopped.schedules.Keys == db.schedules.Keys
  {
  }

  lemma TimesTwice(s: Db, t: Db, u: Db)
    requires TimesKept(s, t) && TimesKept(t, u)
    ensures TimesKept(s, u)
  {
    forall i | 0 <= i < |s.events| ensures SameDue(s.events[i], u.events[i]) {
      assert SameDue(s.events[i], t.events[i]) && SameDue(t.events[i], u.events[i]);
    }
    forall i | 0 <= i < |s.events| && s.events[i].schedule in s.schedules
      ensures u.schedules[s.events[i].schedule].completedAt == s.schedules[s.events[i].schedule].completedAt || u.events[i].processedAt.Some?
    {
      assert SameDue(s.events[i], t.events[i]) && SameDue(t.events[i], u.events[i]);
    }
    forall i | |s.events| <= i < |u.events| ensures EventDue(u, u.events[i]) && EventSettled(u, u.events[i]) {
      if i < |t.events| {
        assert EventDue(t, t.events[i]) && EventSettled(t, t.events[i]) && SameDue(t.events[i], u.events[i]);
      }
    }
  }

  lemma StopTimes(db: Db, k: Id)
    requires IdsFresh(db) && k in db.schedules
    ensures var t := SetSchedule(db, k, Stopped(db.schedules[k])); t.schedules.Keys == db.schedules.Keys && IdsFresh(t) && TimesKept(db, t)
  {
    hide TimesKept;
    OneRowTimes(db, k);
  }

  lemma InsertTimes(db: Db, deal: Id, contact: Option<Id>, assignee: Id, date: int)
    requires IdsFresh(db)
    ensures TimesKept(db, Scheduled(db, deal, contact, assignee, date))
  {
  }

  lemma RealignTimes(db: Db, k: Id, contact: Option<Id>, assignee: Id)
    requires k in db.schedules
    ensures TimesKept(db, Realigned(db, k, contact, assignee))
  {
    RealignedTasks(db, k, contact, assignee);
    hide Realigned;
  }

  lemma {:induction false} AlignedRowsTimes(db: Db, deal: Id, date: int, contact: Option<Id>, assignee: Id, required: Option<Id>, rows: seq<Id>)
    requires IdsFresh(db) && forall k :: k in rows ==> k in db.schedules
    ensures var r := AlignedRows(db, deal, date, contact, assignee, required, rows); r.Some? ==> TimesKept(db, r.value)
    decreases |rows|
  {
    hide IdsFresh, TimesKept, SetSchedule, Scheduled, Realigned, OpenTask;
    if rows == [] {
      InsertTimes(db, deal, contact, assignee, date);
    } else if db.schedules[rows[0]].scheduledFor == date {
      RealignTimes(db, rows[0], contact, assignee);
    } else {
      var stopped := SetSchedule(db, rows[0], Stopped(db.schedules[rows[0]]));
      StopTimes(db, rows[0]);
      AlignedRowsTimes(stopped, deal, date, contact, assignee, required, rows[1..]);
      var r := AlignedRows(stopped, deal, date, contact, assignee, required, rows[1..]);
      if r.Some? {
        TimesTwice(db, stopped, r.value);
      }
    }
  }

  lemma SyncedTimes(db: Db, deal: Id, contact: Option<Id>, user: Id, required: Option<Id>, rows: seq<Id>)
    requires IdsFresh(db) && deal in db.deals && forall k :: k in rows ==> k in db.schedules
    ensures var r := Synced(db, deal, contact, user, required, rows); r.Some? ==> TimesKept(db, r.value)
  {
    hide StoppedRows, AlignedRows, IdsFresh, TimesKept;
    var d := db.deals[deal];
    if d.date.None? {
      StoppedRowsTimes(db, rows);
    } else {
      AlignedRowsTimes(db, deal, d.date.value, contact, if d.assignee.Some? then d.assignee.value else user, required, rows);
    }
  }

  // Nothing here depends on what else changes.
  lemma SameTimes(s: Db, t: Db)
    requires t.schedules.Keys == s.schedules.Keys && |t.events| == |s.events|
    requires forall k :: k in s.schedules ==>
      t.schedules[k].remindAt == s.schedules[k].remindAt && t.schedules[k].scheduledFor == s.schedules[k].scheduledFor
    requires forall k :: k in s.schedules ==> t.schedules[k] == s.schedules[k] || t.schedules[k].status != Active
    requires forall i :: 0 <= i < |s.events| ==> SameDue(s.events[i], t.events[i])
    requires forall i :: 0 <= i < |s.events| && s.events[i].schedule in s.schedules ==>
      t.schedules[s.events[i].schedule].completedAt == s.schedules[s.events[i].schedule].completedAt || t.events[i].processedAt.Some?
    ensures TimesKept(s, t)
  {
  }

  lemma SyncTimes(db: Db, made: Db, deal: Id, contact: Option<Id>, user: Id, required: Option<Id>, rows: seq<Id>)
    requires IdsFresh(made) && deal in made.deals && made.schedules == db.schedules && made.events == db.events
    requires forall k :: k in rows ==> k in made.schedules
    ensures TimesKept(db, made)
    ensures var r := Synced(made, deal, contact, user, required, rows); r.Some? ==> TimesKept(db, r.value)
  {
    hide Synced, IdsFresh;
    SyncedTimes(made, deal, contact, user, required, rows);
  }

  lemma StepTimes(db: Db, op: Op)
    requires Inv(db) && RemindersOk(db) && Honest(db, op) && KnownRows(db, op)
    ensures TimesKept(db, Step(db, op))
  {
    hide Synced, OccurrencesUnique, ActiveAligned, DatesScheduled, TasksOnce, TimesKept, ProcessedEvents, DroppedTasks;
    var after := Step(db, op);
    match op {
      case CreateDeal(assignee, date, contact, user, employee) =>
        var d := Deal(if employee then Some(user) else assignee, date, false, 1);
        SameTimes(db, db);
        SyncTimes(db, db.(deals := db.deals[db.next := d], next := db.next + 1), db.next, contact, user, Required(user, employee), []);
      case UpdateDeal(deal, expected, _, _, _, contact, user, employee, rows) =>
        SameTimes(db, db);
        if Live(db, deal, expected) {
          SyncTimes(db, Edited(db, op), deal, contact, user, Required(user, employee), rows);
        }
      case DeleteDeal(deal, _, now) => SameEvents(db.events, ActiveSet(db, deal), now); SameTimes(db, after);
      case EditTask(_, _, _) => SameTimes(db, after);
      case DeleteTask(t, _, now) => SameEvents(db.events, (set k | k in db.schedules && HasTask(db, k, t)), now); SameTimes(db, after);
      case MakeTask(k, now) => TaskTimes(db, k, now);
    }
  }

  lemma SameEvents(events: seq<Event>, ks: set<Id>, now: int)
    ensures var after := ProcessedEvents(events, ks, now);
      |after| == |events| && forall i :: 0 <= i < |events| ==>
        SameDue(events[i], after[i]) && (events[i].schedule in ks ==> after[i].processedAt.Some?)
  {
  }

  lemma TaskTimes(db: Db, k: Id, now: int)
    requires RemindersOk(db)
    ensures TimesKept(db, TaskFor(db, k, now).0)
  {
  }

  // Over every run: reminders are a week ahead of the purchase, and every
  // due-soon event becomes available exactly then.
  lemma {:induction false} RemindersRun(ops: seq<Op>)
    requires HonestRun(ops)
    ensures RemindersOk(Run(ops))
  {
    if ops != [] {
      var front := ops[..|ops| - 1];
      RemindersRun(front);
      InvRun(front);
      HonestRows(Run(front), ops[|ops| - 1]);
      StepTimes(Run(front), ops[|ops| - 1]);
      hide Step, Inv, TimesKept, RemindersOk;
      TimesKeepReminders(Run(front), Step(Run(front), ops[|ops| - 1]));
    }
  }
}
