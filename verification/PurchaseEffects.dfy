// What the purchase requests write, table by table and field by field
// (backend/app/api/crm.py, backend/app/integrations/purchases.py).
module PurchaseEffects {
  import opened Prelude
  import opened Purchases

  // ----- the sync -----

  // The active schedule for the date follows contact and assignee, active ones
  // for other dates are cancelled, a missing occurrence is added.
  ghost predicate SchedulesFollow(db: Db, deal: Id, date: Option<int>, contact: Option<Id>, assignee: Id, t: Db) {
    && t.schedules.Keys == db.schedules.Keys + (if date.Some? && !HasOccurrence(db, deal, date.value) then {db.next} else {})
    && (forall k :: k in db.schedules ==>
          t.schedules[k] ==
          (if !ActiveFor(db, k, deal) then db.schedules[k]
          else if date == Some(db.schedules[k].scheduledFor) then db.schedules[k].(contact := contact, assignee := assignee)
          else db.schedules[k].(status := Cancelled, version := db.schedules[k].version + 1)))
    && (date.Some? && !HasOccurrence(db, deal, date.value) ==>
          t.schedules[db.next] == Schedule(deal, date.value, date.value - WEEK, contact, assignee, Active, None, None, None, 1))
  }

  // The task of the active schedule for the date.
  ghost predicate FollowedTask(db: Db, deal: Id, date: Option<int>, x: Id) {
    exists k :: ActiveFor(db, k, deal) && date == Some(db.schedules[k].scheduledFor) && db.schedules[k].task == Some(x)
  }

  // That task, while it is open, follows the assignee.
  ghost predicate TasksFollow(db: Db, deal: Id, date: Option<int>, assignee: Id, t: Db) {
    && t.tasks.Keys == db.tasks.Keys
    && (forall x :: x in db.tasks ==>
          t.tasks[x] ==
          (if db.tasks[x].status == Open && db.tasks[x].assignee != assignee && FollowedTask(db, deal, date, x)
          then db.tasks[x].(assignee := assignee, version := db.tasks[x].version + 1) else db.tasks[x]))
  }

  ghost predicate Follows(db: Db, deal: Id, date: Option<int>, contact: Option<Id>, assignee: Id, t: Db) {
    && SchedulesFollow(db, deal, date, contact, assignee, t) && TasksFollow(db, deal, date, assignee, t)
    && t.deals == db.deals && t.events == db.events && t.made == db.made
  }

  // Everything a sync that goes through writes. The assignee is the deal's, or
  // the user who sends the request.
  lemma SyncWrites(db: Db, deal: Id, contact: Option<Id>, user: Id, required: Option<Id>, rows: seq<Id>)
    requires Pending(db, deal, rows) && Synced(db, deal, contact, user, required, rows).Some?
    ensures var d := db.deals[deal];
      Follows(db, deal, d.date, contact, if d.assignee.Some? then d.assignee.value else user, Synced(db, deal, contact, user, required, rows).value)
  {
    hide Inv, TasksOnce, OccurrencesUnique, IdsFresh, Synced, Follows;
    FreshNext(db, deal, rows);
    if rows == [] {
      NoneActive(db, deal);
      NoRowWrites(db, deal, contact, user, required);
    } else {
      OnlyRow(db, deal, rows);
      OneRowWrites(db, deal, rows[0], contact, user, required);
    }
  }

  lemma FreshNext(db: Db, deal: Id, rows: seq<Id>)
    requires Pending(db, deal, rows)
    ensures db.next !in db.schedules
  {
  }

  lemma OnlyRow(db: Db, deal: Id, rows: seq<Id>)
    requires |rows| == 1 && ActiveRows(db, deal, rows)
    ensures rows == [rows[0]] && rows[0] in db.schedules && forall k :: ActiveFor(db, k, deal) <==> k == rows[0]
  {
    forall k ensures ActiveFor(db, k, deal) <==> k == rows[0] {
      assert ActiveFor(db, k, deal) <==> k in rows;
    }
    assert ActiveFor(db, rows[0], deal);
  }

  lemma ScheduledIs(db: Db, deal: Id, contact: Option<Id>, assignee: Id, date: int)
    ensures Scheduled(db, deal, contact, assignee, date) ==
      if HasOccurrence(db, deal, date) then db
      else db.(schedules := db.schedules[db.next := Schedule(deal, date, date - WEEK, contact, assignee, Active, None, None, None, 1)],
               next := db.next + 1)
  {
    if k :| Occurrence(db, k, deal, date) {
      assert k in db.schedules;
    }
  }

  lemma NoRowWrites(db: Db, deal: Id, contact: Option<Id>, user: Id, required: Option<Id>)
    requires deal in db.deals && db.next !in db.schedules && forall k :: !ActiveFor(db, k, deal)
    ensures var d := db.deals[deal]; var r := Synced(db, deal, contact, user, required, []);
      r.Some? && Follows(db, deal, d.date, contact, if d.assignee.Some? then d.assignee.value else user, r.value)
  {
    hide HasOccurrence, Scheduled;
    var d := db.deals[deal];
    if d.date.Some? {
      ScheduledIs(db, deal, contact, if d.assignee.Some? then d.assignee.value else user, d.date.value);
    }
  }

  lemma OneRowWrites(db: Db, deal: Id, k: Id, contact: Option<Id>, user: Id, required: Option<Id>)
    requires deal in db.deals && db.next !in db.schedules && (forall j :: ActiveFor(db, j, deal) <==> j == k) && k in db.schedules
    ensures var d := db.deals[deal]; var r := Synced(db, deal, contact, user, required, [k]);
      r.Some? ==> Follows(db, deal, d.date, contact, if d.assignee.Some? then d.assignee.value else user, r.value)
  {
    assert ActiveFor(db, k, deal);
    hide Synced, HasOccurrence, Scheduled, Realigned, Follows;
    OneRowSynced(db, deal, k, contact, user, required);
    var d, s := db.deals[deal], db.schedules[k];
    var assignee := AssigneeOf(db, deal, user);
    var stopped := SetSchedule(db, k, Stopped(s));
    if d.date.None? {
      StoppedFollows(db, deal, k, contact, assignee);
    } else if s.scheduledFor == d.date.value {
      RealignedFollows(db, deal, k, contact, assignee);
    } else {
      SameOccurrences(db, stopped, deal, d.date.value);
      ScheduledIs(stopped, deal, contact, assignee, d.date.value);
      ReplacedFollows(db, deal, k, contact, assignee, d.date.value);
    }
  }

  lemma SameOccurrences(db: Db, t: Db, deal: Id, date: int)
    requires t.schedules.Keys == db.schedules.Keys
    requires forall k :: k in db.schedules ==> t.schedules[k].deal == db.schedules[k].deal && t.schedules[k].scheduledFor == db.schedules[k].scheduledFor
    ensures HasOccurrence(t, deal, date) <==> HasOccurrence(db, deal, date)
  {
    forall k ensures Occurrence(t, k, deal, date) <==> Occurrence(db, k, deal, date) {
    }
  }

  lemma StoppedFollows(db: Db, deal: Id, k: Id, contact: Option<Id>, assignee: Id)
    requires k in db.schedules && forall j :: ActiveFor(db, j, deal) <==> j == k
    ensures Follows(db, deal, None, contact, assignee, SetSchedule(db, k, Stopped(db.schedules[k])))
  {
    hide HasOccurrence;
  }

  lemma ReplacedFollows(db: Db, deal: Id, k: Id, contact: Option<Id>, assignee: Id, date: int)
    requires k in db.schedules && db.next !in db.schedules && (forall j :: ActiveFor(db, j, deal) <==> j == k)
    requires db.schedules[k].scheduledFor != date
    ensures var stopped := SetSchedule(db, k, Stopped(db.schedules[k]));
      Follows(db, deal, Some(date), contact, assignee,
        if HasOccurrence(db, deal, date) then stopped
        else stopped.(schedules := stopped.schedules[db.next := Schedule(deal, date, date - WEEK, contact, assignee, Active, None, None, None, 1)],
                      next := db.next + 1))
  {
    hide HasOccurrence;
  }

  lemma RealignedFollows(db: Db, deal: Id, k: Id, contact: Option<Id>, assignee: Id)
    requires k in db.schedules && forall j :: ActiveFor(db, j, deal) <==> j == k
    ensures Follows(db, deal, Some(db.schedules[k].scheduledFor), contact, assignee, Realigned(db, k, contact, assignee))
  {
    assert ActiveFor(db, k, deal);
    var date := Some(db.schedules[k].scheduledFor);
    assert HasOccurrence(db, deal, date.value) by {
      assert Occurrence(db, k, deal, date.value);
    }
    forall x: Id ensures FollowedTask(db, deal, date, x) <==> db.schedules[k].task == Some(x) {
    }
    hide HasOccurrence, FollowedTask;
  }

  // ----- the deal itself -----

  // What each request makes of the deals.
  lemma DealsWritten(db: Db, op: Op)
    requires KnownRows(db, op)
    ensures var t := Step(db, op);
      match op
      case CreateDeal(assignee, date, _, user, employee) =>
        t == db || t.deals == db.deals[db.next := Deal(if employee then Some(user) else assignee, date, false, 1)]
      case UpdateDeal(deal, expected, newDate, newAssignee, _, _, _, _, _) =>
        t == db || (
          && Live(db, deal, expected)
          && t.deals.Keys == db.deals.Keys
          && (forall other :: other in db.deals && other != deal ==> t.deals[other] == db.deals[other])
          && t.deals[deal].date == (match newDate case Keep => db.deals[deal].date case Set(date) => date)
          && t.deals[deal].assignee == (match newAssignee case Keep => db.deals[deal].assignee case Set(a) => a)
          && !t.deals[deal].deleted && t.deals[deal].version == db.deals[deal].version + 1)
      case DeleteDeal(deal, expected, _) =>
        if Live(db, deal, expected) then
          t.deals == db.deals[deal := db.deals[deal].(deleted := true, version := db.deals[deal].version + 1)]
        else t == db
      case _ => t.deals == db.deals
  {
    hide Synced, ProcessedEvents, DroppedTasks;
    match op {
      case CreateDeal(assignee, date, contact, user, employee) =>
        var made := db.(deals := db.deals[db.next := Deal(if employee then Some(user) else assignee, date, false, 1)], next := db.next + 1);
        SyncKeepsDeals(made, db.next, contact, user, Required(user, employee), []);
      case UpdateDeal(deal, expected, _, _, _, contact, user, employee, rows) =>
        if Live(db, deal, expected) {
          SyncKeepsDeals(Edited(db, op), deal, contact, user, Required(user, employee), rows);
        }
      case _ =>
    }
  }

  lemma SyncKeepsDeals(db: Db, deal: Id, contact: Option<Id>, user: Id, required: Option<Id>, rows: seq<Id>)
    requires deal in db.deals && forall k :: k in rows ==> k in db.schedules
    ensures var r := Synced(db, deal, contact, user, required, rows); r.Some? ==> r.value.deals == db.deals
  {
    hide StoppedRows, AlignedRows;
    var d := db.deals[deal];
    StopKeepsDeals(db, rows);
    if d.date.Some? {
      AlignKeepsDeals(db, deal, d.date.value, contact, if d.assignee.Some? then d.assignee.value else user, required, rows);
    }
  }

  lemma {:induction false} StopKeepsDeals(db: Db, rows: seq<Id>)
    requires forall k :: k in rows ==> k in db.schedules
    ensures StoppedRows(db, rows).deals == db.deals
    decreases |rows|
  {
    if rows != [] {
      StopKeepsDeals(SetSchedule(db, rows[0], Stopped(db.schedules[rows[0]])), rows[1..]);
    }
  }

  lemma {:induction false} AlignKeepsDeals(db: Db, deal: Id, date: int, contact: Option<Id>, assignee: Id, required: Option<Id>, rows: seq<Id>)
    requires forall k :: k in rows ==> k in db.schedules
    ensures var r := AlignedRows(db, deal, date, contact, assignee, required, rows); r.Some? ==> r.value.deals == db.deals
    decreases |rows|
  {
    if rows != [] && db.schedules[rows[0]].scheduledFor != date {
      AlignKeepsDeals(SetSchedule(db, rows[0], Stopped(db.schedules[rows[0]])), deal, date, contact, assignee, required, rows[1..]);
    }
  }

  // ----- the task of a schedule -----

  // The task is for the deal, contact and assignee of the schedule, due when the
  // purchase is expected; its event becomes available when the reminder is due.
  lemma TaskWritten(db: Db, k: Id, now: int)
    requires IdsFresh(db)
    ensures var (t, error) := TaskFor(db, k, now);
      && t.deals == db.deals && t.schedules.Keys == db.schedules.Keys
      && (forall j :: j in db.schedules && j != k ==> t.schedules[j] == db.schedules[j])
      && (forall x :: x in db.tasks ==> x in t.tasks && t.tasks[x] == db.tasks[x])
      && (k in db.schedules && db.schedules[k].status == Active && db.schedules[k].task.None? ==>
            var s := db.schedules[k];
            && error == None
            && t.tasks.Keys == db.tasks.Keys + {db.next}
            && t.tasks[db.next].deal == s.deal && t.tasks[db.next].contact == s.contact && t.tasks[db.next].assignee == s.assignee
            && t.tasks[db.next].dueAt == s.scheduledFor && t.tasks[db.next].remindAt == s.remindAt
            && t.tasks[db.next].status == Open && t.tasks[db.next].version == 1
            && t.schedules[k] == s.(task := Some(db.next), enqueuedAt := Some(now), version := s.version + 1)
            && |t.events| == |db.events| + 1 && t.events[..|db.events|] == db.events
            && t.events[|db.events|].schedule == k && t.events[|db.events|].task == db.next
            && t.events[|db.events|].availableAt == s.remindAt && t.events[|db.events|].processedAt == None)
  {
  }

  // Asked for a schedule that is unknown, that is not active, or whose task is
  // gone, it makes nothing and says so; asked again, it makes nothing.
  lemma TaskRefused(db: Db, k: Id, now: int)
    ensures var (t, error) := TaskFor(db, k, now);
      && (error == Some(NoSchedule) <==> k !in db.schedules)
      && (error == Some(NotActive) <==> k in db.schedules && db.schedules[k].status != Active)
      && (error == Some(MissingTask) <==>
            k in db.schedules && db.schedules[k].status == Active
            && db.schedules[k].task.Some? && db.schedules[k].task.value !in db.tasks)
      && (error.Some? || db.schedules[k].task.Some? ==> t == db)
  {
  }

  // ----- which updates follow the schedule -----

  // An update of a live deal that sets the date, the assignee or the contacts
  // makes the schedule follow, or is refused because the open task for the date
  // is not the employee's; any other leaves everything but the deal's version
  // alone; with a stale version nothing happens.
  lemma UpdateFollows(db: Db, op: Op)
    requires Inv(db) && op.UpdateDeal? && ActiveRows(db, op.deal, op.rows)
    ensures KnownRows(db, op)
    ensures var t := Step(db, op);
      if op.deal !in db.deals || db.deals[op.deal].deleted || db.deals[op.deal].version != op.expected then t == db
      else if op.newDate == Keep && op.newAssignee == Keep && !op.contactsSet then
        t == db.(deals := db.deals[op.deal := db.deals[op.deal].(version := op.expected + 1)])
      else
        var edited := Edited(db, op);
        var date, assignee := edited.deals[op.deal].date, edited.deals[op.deal].assignee;
        if op.employee && date.Some? && TaskInTheWay(db, op.deal, date.value, op.user) then t == db
        else Follows(edited, op.deal, date, op.contact, if assignee.Some? then assignee.value else op.user, t)
  {
    hide Synced, Follows, Inv, TaskInTheWay;
    RowsKnown(db, op.deal, op.rows);
    if Live(db, op.deal, op.expected) && Syncs(op) {
      var edited := Edited(db, op);
      EditedPending(db, op);
      RefusedOnly(db, edited, op);
      if Synced(edited, op.deal, op.contact, op.user, Required(op.user, op.employee), op.rows).Some? {
        SyncWrites(edited, op.deal, op.contact, op.user, Required(op.user, op.employee), op.rows);
      }
    }
  }

  // An active schedule of the deal for the date has an open task of somebody else.
  ghost predicate TaskInTheWay(db: Db, deal: Id, date: int, user: Id) {
    exists k, x :: ActiveFor(db, k, deal) && db.schedules[k].scheduledFor == date && db.schedules[k].task == Some(x)
      && x in db.tasks && db.tasks[x].status == Open && db.tasks[x].assignee != user
  }

  lemma RefusedOnly(db: Db, edited: Db, op: Op)
    requires op.UpdateDeal? && Pending(edited, op.deal, op.rows) && edited.schedules == db.schedules && edited.tasks == db.tasks
    ensures Synced(edited, op.deal, op.contact, op.user, Required(op.user, op.employee), op.rows).None?
       <==> op.employee && edited.deals[op.deal].date.Some? && TaskInTheWay(db, op.deal, edited.deals[op.deal].date.value, op.user)
  {
    hide AlignedRows, StoppedRows, OccurrencesUnique, TasksOnce, IdsFresh;
    if edited.deals[op.deal].date.Some? {
      var date := edited.deals[op.deal].date.value;
      SyncedRefusedIff(edited, op.deal, date, op.contact, op.user, Required(op.user, op.employee), op.rows);
      InTheWay(db, edited, op.deal, date, op.user, op.employee);
    }
  }

  lemma InTheWay(db: Db, edited: Db, deal: Id, date: int, user: Id, employee: bool)
    requires edited.schedules == db.schedules && edited.tasks == db.tasks
    ensures ForeignTask(edited, deal, date, Required(user, employee)) <==> employee && TaskInTheWay(db, deal, date, user)
  {
    if employee && TaskInTheWay(db, deal, date, user) {
      var k, x :| ActiveFor(db, k, deal) && db.schedules[k].scheduledFor == date && db.schedules[k].task == Some(x)
        && x in db.tasks && db.tasks[x].status == Open && db.tasks[x].assignee != user;
      assert ActiveFor(edited, k, deal) && Foreign(edited, k, Required(user, employee));
    }
  }

  lemma RowsKnown(db: Db, deal: Id, rows: seq<Id>)
    requires ActiveRows(db, deal, rows)
    ensures forall k :: k in rows ==> k in db.schedules
  {
  }

  // ----- reminders of deleted deals -----

  // A pending event is expanded into notifications only while its schedule is
  // active (expand_notification).
  predicate Expands(db: Db, e: Event) {
    e.schedule in db.schedules && db.schedules[e.schedule].status == Active
  }

  // In every reachable state an event that is expanded belongs to a live deal,
  // and to the date the deal now has.
  lemma NoReminderForDeleted(ops: seq<Op>, e: Event)
    requires HonestRun(ops) && Expands(Run(ops), e)
    ensures var db := Run(ops); var s := db.schedules[e.schedule];
      s.deal in db.deals && !db.deals[s.deal].deleted && db.deals[s.deal].date == Some(s.scheduledFor)
  {
    InvRun(ops);
    hide Run, TasksOnce, OccurrencesUnique, IdsFresh, DatesScheduled;
  }

  // The event is pending and its deal is deleted.
  predicate PendingForDeleted(db: Db, e: Event) {
    && e.processedAt.None? && e.schedule in db.schedules
    && db.schedules[e.schedule].deal in db.deals && db.deals[db.schedules[e.schedule].deal].deleted
  }

  // Exactly which pending events of a deal its deletion leaves pending: those of
  // schedules that were not active any more.
  lemma DeletionLeavesPendingIff(db: Db, deal: Id, now: int, i: nat)
    requires deal in db.deals && i < |db.events|
    requires db.events[i].schedule in db.schedules && db.schedules[db.events[i].schedule].deal == deal
    ensures var t := DealDeleted(db, deal, now);
      && |t.events| == |db.events|
      && (PendingForDeleted(t, t.events[i]) <==>
            db.events[i].processedAt.None? && db.schedules[db.events[i].schedule].status != Active)
  {
    DeletionWrites(db, deal, now);
    hide DroppedTasks, ProcessedEvents, TaskOfActive;
  }

  // A run that leaves one: the task is made, the date moves, the deal is deleted.
  lemma PendingAfterDeletion() returns (ops: seq<Op>)
    ensures HonestRun(ops)
    ensures var db := Run(ops); |db.events| == 1 && PendingForDeleted(db, db.events[0])
  {
    hide Step, Honest, Run, HonestRun;
    var a, b := CreateDeal(None, Some(100), None, 7, false), MakeTask(1, 5);
    var c, d := UpdateDeal(0, 1, Set(Some(200)), Keep, false, None, 7, false, [1]), DeleteDeal(0, 2, 9);
    var first := Db(map[0 := Deal(None, Some(100), false, 1)], map[1 := Row(100, Active, 1)], map[], [], 2, []);
    FirstStep(a, first);
    RunOne(a);
    AnyHonest(first, b);
    RunSnoc([a], b);
    var second := Run([a] + [b]);
    InvRun([a] + [b]);
    TaskMade(first, second);
    DateMoves(second, c);
    RunSnoc([a] + [b], c);
    var third := Run([a] + [b] + [c]);
    AnyHonest(third, d);
    RunSnoc([a] + [b] + [c], d);
    ops := [a] + [b] + [c] + [d];
    DealGoes(third);
  }

  lemma AnyHonest(db: Db, op: Op)
    ensures !op.UpdateDeal? ==> Honest(db, op) && KnownRows(db, op)
  {
  }

  lemma TaskMade(first: Db, second: Db)
    requires first == Db(map[0 := Deal(None, Some(100), false, 1)], map[1 := Row(100, Active, 1)], map[], [], 2, [])
    requires second == Step(first, MakeTask(1, 5))
    ensures second.deals == first.deals && second.schedules == map[1 := Row(100, Active, 1).(task := Some(2), enqueuedAt := Some(5), version := 2)]
    ensures |second.events| == 1 && second.events[0].schedule == 1 && second.events[0].processedAt == None
  {
  }

  lemma DateMoves(second: Db, c: Op)
    requires Inv(second) && c == UpdateDeal(0, 1, Set(Some(200)), Keep, false, None, 7, false, [1])
    requires second.deals == map[0 := Deal(None, Some(100), false, 1)]
    requires second.schedules == map[1 := Row(100, Active, 1).(task := Some(2), enqueuedAt := Some(5), version := 2)]
    ensures Honest(second, c) && KnownRows(second, c)
    ensures var t := Step(second, c);
      && t.events == second.events && 1 in t.schedules && t.schedules[1].deal == 0 && t.schedules[1].status == Cancelled
      && Live(t, 0, 2)
  {
    hide TasksOnce, OccurrencesUnique, IdsFresh, DatesScheduled, Synced;
    assert forall k :: ActiveFor(second, k, 0) <==> k == 1;
    var edited := Edited(second, c);
    EditedPending(second, c);
    SyncedRefusedIff(edited, 0, 200, None, 7, None, [1]);
    SyncWrites(edited, 0, None, 7, None, [1]);
    hide Pending, ForeignTask, TasksFollow;
    assert ActiveFor(edited, 1, 0);
  }

  lemma DealGoes(third: Db)
    requires |third.events| == 1 && third.events[0].schedule == 1 && third.events[0].processedAt == None
    requires 1 in third.schedules && third.schedules[1].deal == 0 && third.schedules[1].status == Cancelled && Live(third, 0, 2)
    ensures var t := Step(third, DeleteDeal(0, 2, 9)); |t.events| == 1 && PendingForDeleted(t, t.events[0])
  {
    hide PendingForDeleted, DealDeleted;
    DeletionLeavesPendingIff(third, 0, 9, 0);
  }

  // Over every run: such an event belongs to a schedule that a change of date
  // cancelled; deletions complete the schedules whose events they settle.
  lemma PendingOnlyOfReplaced(ops: seq<Op>, i: nat)
    requires HonestRun(ops) && i < |Run(ops).events| && PendingForDeleted(Run(ops), Run(ops).events[i])
    ensures var db := Run(ops); var s := db.schedules[db.events[i].schedule];
      s.status != Active && s.completedAt.None?
  {
    InvRun(ops);
    RemindersRun(ops);
    hide Run, TasksOnce, OccurrencesUnique, IdsFresh, DatesScheduled;
    assert EventSettled(Run(ops), Run(ops).events[i]);
  }
}
