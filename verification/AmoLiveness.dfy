// What the queue and the workers can still do for an import on their own:
// exactly when its job can still change, when a page can still be applied, and
// when it can still be finished.
module AmoLiveness {
  import opened Prelude
  import opened AmoPages
  import opened AmoImport
  import opened AmoProtocol
  import opened AmoTheorems

  // ----- continuations in which no administrator acts -----

  predicate OnItsOwn(a: Action) {
    !a.Ask? && !a.Execute?
  }

  predicate Unattended(actions: seq<Action>) {
    forall i :: 0 <= i < |actions| ==> OnItsOwn(actions[i])
  }

  function After(setup: Setup, s: State, actions: seq<Action>): State
    decreases actions
  {
    if actions == [] then s else After(setup, Step(setup, s, actions[0]), actions[1..])
  }

  lemma {:induction false} AfterSnoc(setup: Setup, s: State, actions: seq<Action>, a: Action)
    ensures After(setup, s, actions + [a]) == Step(setup, After(setup, s, actions), a)
    decreases actions
  {
    hide Step;
    if actions == [] {
      assert (actions + [a])[1..] == [];
    } else {
      assert (actions + [a])[1..] == actions[1..] + [a];
      AfterSnoc(setup, Step(setup, s, actions[0]), actions[1..], a);
    }
  }

  // Continuing a run is continuing from the state it has reached.
  lemma {:induction false} RunOn(setup: Setup, actions: seq<Action>, more: seq<Action>)
    requires HonestRun(setup, actions) && Unattended(more)
    ensures HonestRun(setup, actions + more)
    ensures Run(setup, actions + more) == After(setup, Run(setup, actions), more)
  {
    hide Step, Run, HonestRun, After;
    if more == [] {
      assert actions + more == actions;
      NothingMore(setup, Run(setup, actions));
    } else {
      var front, a := more[..|more| - 1], more[|more| - 1];
      RunOn(setup, actions, front);
      assert OnItsOwn(more[|more| - 1]);
      assert actions + more == (actions + front) + [a] && more == front + [a];
      RunSnoc(setup, actions + front, a);
      AfterSnoc(setup, Run(setup, actions), front, a);
    }
  }

  lemma NothingMore(setup: Setup, s: State)
    ensures After(setup, s, []) == s
  {
  }

  lemma First(setup: Setup, s: State, a: Action, more: seq<Action>)
    requires OnItsOwn(a) && Unattended(more)
    ensures Unattended([a] + more)
    ensures After(setup, s, [a] + more) == After(setup, Step(setup, s, a), more)
  {
    hide Step;
    assert ([a] + more)[1..] == more;
  }

  // ----- what may still happen -----

  // The queue can hand the entry out, now or after its lease has expired.
  predicate AttemptLeft(s: State, key: Key) {
    && key != ReportKey && key in s.entries && s.entries[key].attempts < MAX_ATTEMPTS
    && (s.entries[key].status.Queued? || s.entries[key].status.Leased?)
  }

  // The worker can still commit a page, or record that the import failed. Its
  // lease does not matter, nor does the version it has seen: the transaction
  // that records an error compares neither.
  predicate Live(worker: Worker) {
    match worker.phase
    case Started => true
    case Fetching(_, _) => true
    case Fetched(_, _, _) => true
    case Raised(retryable) => !retryable || worker.attempts >= MAX_ATTEMPTS
    case Rethrown => false
    case Returned => false
  }

  // The worker can still commit a page: it has not looked at the job yet, or has
  // looked at it in its present version.
  predicate Current(s: State, worker: Worker) {
    match worker.phase
    case Started => true
    case Fetching(v, _) => v == s.job.version
    case Fetched(v, _, _) => v == s.job.version
    case _ => false
  }

  ghost predicate AnyAttempt(s: State) {
    exists key :: AttemptLeft(s, key)
  }

  ghost predicate AnyLive(s: State) {
    exists w :: w in s.workers && Live(s.workers[w])
  }

  ghost predicate AnyCurrent(s: State) {
    exists w :: w in s.workers && Current(s, s.workers[w])
  }

  // ----- without administrators no attempt comes back -----

  lemma NoAttemptStep(setup: Setup, s: State, a: Action)
    requires !AnyAttempt(s) && OnItsOwn(a) && !(a.Commit? && Commits(setup, s, a.worker))
    ensures !AnyAttempt(Step(setup, s, a))
  {
    hide ClaimStep, SnapshotStep, FetchStep, FailStep, CommitStep, SettleStep, AcknowledgeStep, RecoverStep;
    forall key ensures !AttemptLeft(Step(setup, s, a), key) {
      assert !AttemptLeft(s, key);
      match a
      case Claim(k) => ClaimSpends(s, k, key);
      case Recover(k) => RecoverSpends(s, k, key);
      case Acknowledge(w) => AcknowledgeSpends(s, w, key);
      case Commit(w) => CommitSpends(setup, s, w);
      case Snapshot(_) => PhaseKeepsEntries(setup, s, a);
      case Fetch(_) => PhaseKeepsEntries(setup, s, a);
      case Fail(_, _) => PhaseKeepsEntries(setup, s, a);
      case Settle(_) => PhaseKeepsEntries(setup, s, a);
      case _ =>
    }
  }

  lemma ClaimSpends(s: State, k: Key, key: Key)
    requires !AttemptLeft(s, key)
    ensures !AttemptLeft(ClaimStep(s, k), key)
  {
  }

  lemma RecoverSpends(s: State, k: Key, key: Key)
    requires !AttemptLeft(s, key)
    ensures !AttemptLeft(RecoverStep(s, k), key)
  {
  }

  lemma AcknowledgeSpends(s: State, w: nat, key: Key)
    requires !AttemptLeft(s, key)
    ensures !AttemptLeft(AcknowledgeStep(s, w), key)
  {
  }

  lemma CommitSpends(setup: Setup, s: State, w: nat)
    requires !Commits(setup, s, w)
    ensures CommitStep(setup, s, w).entries == s.entries && CommitStep(setup, s, w).job == s.job
  {
    hide Applied, Rejection;
  }

  lemma NothingToClaim(s: State, k: Key)
    requires !AnyAttempt(s)
    ensures ClaimStep(s, k) == s
  {
    assert !AttemptLeft(s, k);
  }

  // ----- main result 1: when the job can still change -----

  // No continuation without an administrator ever changes the job.
  ghost predicate Lost(setup: Setup, s: State) {
    forall more :: Unattended(more) ==> After(setup, s, more).job == s.job
  }

  lemma IdleStep(setup: Setup, s: State, a: Action)
    requires Runnable(s.job.status) && !AnyAttempt(s) && !AnyLive(s) && OnItsOwn(a)
    ensures var t := Step(setup, s, a); t.job == s.job && !AnyAttempt(t) && !AnyLive(t)
  {
    hide AnyAttempt, Live;
    if a.Claim? {
      NothingToClaim(s, a.key);
    } else {
      IdleJob(setup, s, a);
      NoAttemptStep(setup, s, a);
      forall w | w in Step(setup, s, a).workers ensures !Live(Step(setup, s, a).workers[w]) {
        IdleWorker(setup, s, a, w);
      }
    }
  }

  lemma IdleJob(setup: Setup, s: State, a: Action)
    requires Runnable(s.job.status) && !AnyLive(s) && OnItsOwn(a)
    ensures Step(setup, s, a).job == s.job
    ensures !(a.Commit? && Commits(setup, s, a.worker))
  {
    hide Applied, FetchJobPage, Rejection;
    if (a.Commit? || a.Settle?) && a.worker in s.workers {
      assert !Live(s.workers[a.worker]);
    }
  }

  lemma IdleWorker(setup: Setup, s: State, a: Action, w: nat)
    requires !AnyLive(s) && OnItsOwn(a) && !a.Claim? && w in Step(setup, s, a).workers
    ensures !Live(Step(setup, s, a).workers[w])
  {
    hide Applied, FetchJobPage, Rejection, AcknowledgeStep, RecoverStep;
    match a {
      case Acknowledge(x) => AcknowledgeWorkers(s, x);
      case Recover(key) => RecoverWorkers(s, key);
      case _ =>
    }
    assert w in s.workers ==> !Live(s.workers[w]);
  }

  lemma {:induction false} IdleRun(setup: Setup, s: State, more: seq<Action>)
    requires Runnable(s.job.status) && !AnyAttempt(s) && !AnyLive(s) && Unattended(more)
    ensures After(setup, s, more).job == s.job
    decreases more
  {
    hide Step, AnyAttempt, AnyLive;
    if more != [] {
      IdleStep(setup, s, more[0]);
      IdleRun(setup, Step(setup, s, more[0]), more[1..]);
    }
  }

  // A live worker can at least record that the import failed.
  lemma LiveSettles(setup: Setup, s: State, w: nat) returns (more: seq<Action>)
    requires Runnable(s.job.status) && w in s.workers && Live(s.workers[w])
    ensures Unattended(more) && After(setup, s, more).job != s.job
    decreases if s.workers[w].phase.Started? then 2 else if s.workers[w].phase.Raised? then 0 else 1
  {
    hide After, Unattended;
    if s.workers[w].phase.Raised? {
      NothingMore(setup, Step(setup, s, Settle(w)));
      NoActions();
      First(setup, s, Settle(w), []);
      more := [Settle(w)] + [];
    } else {
      var a := if s.workers[w].phase.Started? then Snapshot(w) else Fail(w, false);
      var rest := LiveSettles(setup, Step(setup, s, a), w);
      First(setup, s, a, rest);
      more := [a] + rest;
    }
  }

  lemma NoActions()
    ensures Unattended([])
  {
  }

  lemma AttemptSettles(setup: Setup, s: State, key: Key) returns (more: seq<Action>)
    requires Runnable(s.job.status) && AttemptLeft(s, key)
    ensures Unattended(more) && After(setup, s, more).job != s.job
    decreases s.entries[key].status.Leased?
  {
    hide After, Unattended;
    if s.entries[key].status.Queued? {
      var rest := LiveSettles(setup, Step(setup, s, Claim(key)), s.nextWorker);
      First(setup, s, Claim(key), rest);
      more := [Claim(key)] + rest;
    } else {
      var rest := AttemptSettles(setup, Step(setup, s, Recover(key)), key);
      First(setup, s, Recover(key), rest);
      more := [Recover(key)] + rest;
    }
  }

  // In any state of a pending or running import: a wake-up is lost exactly when
  // no entry has an attempt left and no live worker is about.
  lemma WakeUpLostIff(setup: Setup, s: State)
    requires Runnable(s.job.status)
    ensures Lost(setup, s) <==> !AnyAttempt(s) && !AnyLive(s)
  {
    hide After, Unattended, Live, AttemptLeft;
    if AnyAttempt(s) {
      var key :| AttemptLeft(s, key);
      var more := AttemptSettles(setup, s, key);
    } else if AnyLive(s) {
      var w :| w in s.workers && Live(s.workers[w]);
      var more := LiveSettles(setup, s, w);
    } else {
      forall more | Unattended(more) ensures After(setup, s, more).job == s.job {
        IdleRun(setup, s, more);
      }
    }
  }

  // Over every run, for the entry that was queued when the job reached its
  // present version: there is exactly one, and nothing is lost as long as it has
  // attempts left. When nothing else is left, no older entry and no live worker,
  // the wake-up is lost exactly when its attempts are used up.
  lemma NoLostWakeUp(setup: Setup, actions: seq<Action>)
    requires HonestRun(setup, actions) && Runnable(Run(setup, actions).job.status)
    ensures var s := Run(setup, actions);
      exists key :: CurrentEntry(s, key)
        && (forall other :: CurrentEntry(s, other) ==> other == key)
        && (AttemptLeft(s, key) <==> s.entries[key].attempts < MAX_ATTEMPTS)
        && (s.entries[key].attempts < MAX_ATTEMPTS ==> !Lost(setup, s))
        && ((forall other :: other != key ==> !AttemptLeft(s, other)) && !AnyLive(s) ==>
              (Lost(setup, s) <==> s.entries[key].attempts >= MAX_ATTEMPTS))
  {
    hide Run, HonestRun, InOrder, SnapshotsOk, RequestsOk, AnyLive, Lost;
    InvRun(setup, actions);
    var s := Run(setup, actions);
    WakeUpLostIff(setup, s);
    var key :| CurrentEntry(s, key) && (Unfinished(s, key) || s.entries[key].status == Exhausted);
    CurrentAttempts(s, key);
    hide KeysOk, Unfinished, AttemptLeft;
  }

  lemma CurrentAttempts(s: State, key: Key)
    requires KeysOk(s) && CurrentEntry(s, key) && (Unfinished(s, key) || s.entries[key].status == Exhausted)
    ensures AttemptLeft(s, key) <==> s.entries[key].attempts < MAX_ATTEMPTS
  {
  }

  // ----- main result 2: when a page can still be applied -----

  // A page that is neither too long nor repeats an external id.
  predicate Acceptable(page: JobPage) {
    |page.entities| <= PAGE_LIMIT && DistinctIds(page.entities)
  }

  predicate PageAcceptable(setup: Setup, cursor: JobCursor) {
    Acceptable(FetchJobPage(setup.remote, setup.scope, cursor))
  }

  // No continuation without an administrator applies a page.
  ghost predicate Stalled(setup: Setup, s: State) {
    forall more :: Unattended(more) ==> After(setup, s, more).history == s.history
  }

  lemma OwnInv(setup: Setup, s: State, a: Action)
    requires Inv(setup, s) && OnItsOwn(a)
    ensures Inv(setup, Step(setup, s, a))
  {
    hide Inv, Step;
    InvStep(setup, s, a);
  }

  // A commit that goes through applies the page at the job's cursor, which is
  // acceptable, from a worker that has seen the present version.
  lemma CommitNeeds(setup: Setup, s: State, w: nat)
    requires SnapshotsOk(setup, s) && Commits(setup, s, w)
    ensures AnyCurrent(s) && PageAcceptable(setup, s.job.cursor)
    ensures s.workers[w].phase.page == FetchJobPage(setup.remote, setup.scope, s.job.cursor)
  {
    hide FetchJobPage, DistinctIds;
    assert SnapshotOk(setup, s, s.workers[w].phase);
    assert Current(s, s.workers[w]);
  }

  // Neither an attempt nor a worker that has seen the present version appears,
  // as long as nothing is committed and the import keeps running.
  lemma CalmStep(setup: Setup, s: State, a: Action)
    requires Inv(setup, s) && OnItsOwn(a) && Runnable(Step(setup, s, a).job.status)
    requires !AnyAttempt(s) && !AnyCurrent(s)
    ensures !AnyAttempt(Step(setup, s, a)) && !AnyCurrent(Step(setup, s, a))
  {
    hide InOrder, RequestsOk, KeysOk, OneCurrent, Awake, SnapshotOk, AnyAttempt, Commits, Current, Step;
    if a.Claim? {
      NothingToClaim(s, a.key);
      ClaimIs(setup, s, a.key);
    } else {
      if a.Commit? && Commits(setup, s, a.worker) {
        CommitNeeds(setup, s, a.worker);
      }
      NoAttemptStep(setup, s, a);
      SameJob(setup, s, a);
      forall w | w in Step(setup, s, a).workers ensures !Current(Step(setup, s, a), Step(setup, s, a).workers[w]) {
        CalmWorker(setup, s, a, w);
      }
    }
  }

  lemma ClaimIs(setup: Setup, s: State, key: Key)
    ensures Step(setup, s, Claim(key)) == ClaimStep(s, key)
  {
  }

  lemma SameJob(setup: Setup, s: State, a: Action)
    requires OnItsOwn(a) && Runnable(Step(setup, s, a).job.status) && !(a.Commit? && Commits(setup, s, a.worker))
    ensures Step(setup, s, a).job == s.job
  {
    hide Applied, FetchJobPage, Rejection, Commits, CommitStep;
    if a.Commit? {
      CommitSpends(setup, s, a.worker);
    }
  }

  lemma CalmWorker(setup: Setup, s: State, a: Action, w: nat)
    requires OnItsOwn(a) && !a.Claim? && w in Step(setup, s, a).workers && Step(setup, s, a).job == s.job
    requires !AnyCurrent(s)
    ensures !Current(Step(setup, s, a), Step(setup, s, a).workers[w])
  {
    hide Applied, FetchJobPage, Rejection, AcknowledgeStep, RecoverStep, CommitStep;
    match a {
      case Acknowledge(x) => AcknowledgeWorkers(s, x);
      case Recover(key) => RecoverWorkers(s, key);
      case Commit(x) => CommitPhase(setup, s, x, w);
      case _ =>
    }
    assert w in s.workers ==> !Current(s, s.workers[w]);
  }

  // An import that has stopped does not start again by itself.
  lemma StaysStopped(setup: Setup, s: State, a: Action)
    requires OnItsOwn(a) && !Runnable(s.job.status)
    ensures !Runnable(Step(setup, s, a).job.status)
  {
    hide Applied, FetchJobPage, Rejection;
  }

  // Why no page will be applied.
  ghost predicate Stuck(setup: Setup, s: State) {
    !Runnable(s.job.status) || !PageAcceptable(setup, s.job.cursor) || (!AnyAttempt(s) && !AnyCurrent(s))
  }

  lemma StuckStep(setup: Setup, s: State, a: Action)
    requires Inv(setup, s) && Stuck(setup, s) && OnItsOwn(a)
    ensures var t := Step(setup, s, a); t.history == s.history && Stuck(setup, t)
  {
    hide InOrder, KeysOk, OneCurrent, Awake, AnyAttempt, AnyCurrent, PageAcceptable, Step;
    if a.Commit? && Commits(setup, s, a.worker) {
      CommitNeeds(setup, s, a.worker);
    }
    OtherPages(setup, s, a);
    if !Runnable(s.job.status) {
      StaysStopped(setup, s, a);
    } else if Runnable(Step(setup, s, a).job.status) && !AnyAttempt(s) && !AnyCurrent(s) {
      CalmStep(setup, s, a);
    }
  }

  lemma {:induction false} StuckRun(setup: Setup, s: State, more: seq<Action>)
    requires Inv(setup, s) && Stuck(setup, s) && Unattended(more)
    ensures After(setup, s, more).history == s.history
    decreases more
  {
    hide Step, Inv, Stuck;
    if more != [] {
      StuckStep(setup, s, more[0]);
      OwnInv(setup, s, more[0]);
      StuckRun(setup, Step(setup, s, more[0]), more[1..]);
    }
  }

  // What applying the page at the cursor leads to.
  ghost predicate Advanced(setup: Setup, s: State, t: State) {
    var next := FetchJobPage(setup.remote, setup.scope, s.job.cursor).next;
    && Inv(setup, t) && t.history == s.history + [s.job.cursor]
    && if next.None? then t.job.status == Succeeded
       else t.job.status == Running && t.job.cursor == next.value && AttemptLeft(t, PageKey(t.job.version))
  }

  lemma CurrentApplies(setup: Setup, s: State, w: nat) returns (more: seq<Action>)
    requires Inv(setup, s) && Runnable(s.job.status) && PageAcceptable(setup, s.job.cursor)
    requires w in s.workers && Current(s, s.workers[w])
    ensures Unattended(more) && Advanced(setup, s, After(setup, s, more))
    decreases if s.workers[w].phase.Started? then 2 else if s.workers[w].phase.Fetching? then 1 else 0
  {
    hide After, Unattended, Inv, Advanced, FetchJobPage, DistinctIds, Step, PageAcceptable;
    if s.workers[w].phase.Fetched? {
      CommitAdvances(setup, s, w);
      NothingMore(setup, Step(setup, s, Commit(w)));
      NoActions();
      First(setup, s, Commit(w), []);
      more := [Commit(w)] + [];
    } else {
      var a := if s.workers[w].phase.Started? then Snapshot(w) else Fetch(w);
      LooksAndFetches(setup, s, w);
      OwnInv(setup, s, a);
      var rest := CurrentApplies(setup, Step(setup, s, a), w);
      First(setup, s, a, rest);
      more := [a] + rest;
      SamePlace(setup, s, Step(setup, s, a), After(setup, s, more));
    }
  }

  lemma SamePlace(setup: Setup, s: State, t: State, u: State)
    requires t.history == s.history && t.job == s.job && Advanced(setup, t, u)
    ensures Advanced(setup, s, u)
  {
    hide Inv, FetchJobPage, AttemptLeft;
  }

  lemma LooksAndFetches(setup: Setup, s: State, w: nat)
    requires Inv(setup, s) && Runnable(s.job.status) && PageAcceptable(setup, s.job.cursor)
    requires w in s.workers && Current(s, s.workers[w]) && !s.workers[w].phase.Fetched?
    ensures var t := Step(setup, s, if s.workers[w].phase.Started? then Snapshot(w) else Fetch(w));
      && t.history == s.history && t.job == s.job && w in t.workers && Current(t, t.workers[w])
      && if s.workers[w].phase.Started? then t.workers[w].phase.Fetching? else t.workers[w].phase.Fetched?
  {
    hide FetchJobPage, InOrder, KeysOk, Awake, OneCurrent, DistinctIds;
    assert SnapshotOk(setup, s, s.workers[w].phase);
  }

  lemma CommitAdvances(setup: Setup, s: State, w: nat)
    requires Inv(setup, s) && Runnable(s.job.status) && PageAcceptable(setup, s.job.cursor)
    requires w in s.workers && s.workers[w].phase.Fetched? && s.workers[w].phase.version == s.job.version
    ensures Advanced(setup, s, Step(setup, s, Commit(w)))
  {
    OwnInv(setup, s, Commit(w));
    CommitsPage(setup, s, w);
    hide Inv, PageAcceptable;
    CommitLeads(setup, s, w);
  }

  lemma CommitsPage(setup: Setup, s: State, w: nat)
    requires SnapshotsOk(setup, s) && Runnable(s.job.status) && PageAcceptable(setup, s.job.cursor)
    requires w in s.workers && s.workers[w].phase.Fetched? && s.workers[w].phase.version == s.job.version
    ensures Commits(setup, s, w) && s.workers[w].phase.page == FetchJobPage(setup.remote, setup.scope, s.job.cursor)
  {
    hide FetchJobPage, DistinctIds;
    assert SnapshotOk(setup, s, s.workers[w].phase);
    ActiveInScope(setup.remote, setup.scope, s.job.cursor);
  }

  lemma ActiveInScope(remote: Remote, scope: Scope, cursor: JobCursor)
    ensures scope == All || scope == Only(FetchJobPage(remote, scope, cursor).entityType)
  {
  }

  lemma CommitLeads(setup: Setup, s: State, w: nat)
    requires Commits(setup, s, w)
    ensures var t, next := Step(setup, s, Commit(w)), s.workers[w].phase.page.next;
      && t.history == s.history + [s.job.cursor]
      && if next.None? then t.job.status == Succeeded
         else t.job.status == Running && t.job.cursor == next.value && AttemptLeft(t, PageKey(t.job.version))
  {
    hide Apply, Rejection, Plus;
  }

  lemma AttemptApplies(setup: Setup, s: State, key: Key) returns (more: seq<Action>)
    requires Inv(setup, s) && Runnable(s.job.status) && PageAcceptable(setup, s.job.cursor) && AttemptLeft(s, key)
    ensures Unattended(more) && Advanced(setup, s, After(setup, s, more))
    decreases s.entries[key].status.Leased?
  {
    hide After, Unattended, Inv, Advanced, FetchJobPage, DistinctIds, PageAcceptable;
    var a, rest := if s.entries[key].status.Queued? then Claim(key) else Recover(key), [];
    OwnInv(setup, s, a);
    if s.entries[key].status.Queued? {
      rest := CurrentApplies(setup, Step(setup, s, a), s.nextWorker);
    } else {
      rest := AttemptApplies(setup, Step(setup, s, a), key);
    }
    First(setup, s, a, rest);
    more := [a] + rest;
    SamePlace(setup, s, Step(setup, s, a), After(setup, s, more));
  }

  // One more page, from any state that is not stuck.
  lemma AppliesNext(setup: Setup, s: State) returns (more: seq<Action>)
    requires Inv(setup, s) && Runnable(s.job.status) && PageAcceptable(setup, s.job.cursor)
    requires AnyAttempt(s) || AnyCurrent(s)
    ensures Unattended(more) && Advanced(setup, s, After(setup, s, more))
  {
    hide After, Unattended, Inv, Advanced, PageAcceptable, AttemptLeft, Current;
    if AnyAttempt(s) {
      var key :| AttemptLeft(s, key);
      more := AttemptApplies(setup, s, key);
    } else {
      var w :| w in s.workers && Current(s, s.workers[w]);
      more := CurrentApplies(setup, s, w);
    }
  }

  // Over every run: no page will be applied exactly when the next one cannot be,
  // or no entry has an attempt left and no worker has seen the present version.
  lemma StallsIff(setup: Setup, actions: seq<Action>)
    requires HonestRun(setup, actions) && Runnable(Run(setup, actions).job.status)
    ensures var s := Run(setup, actions);
      Stalled(setup, s) <==> !PageAcceptable(setup, s.job.cursor) || (!AnyAttempt(s) && !AnyCurrent(s))
  {
    hide Run, HonestRun, After, Unattended, Inv, PageAcceptable, AnyAttempt, AnyCurrent;
    InvRun(setup, actions);
    var s := Run(setup, actions);
    if Stuck(setup, s) {
      forall more | Unattended(more) ensures After(setup, s, more).history == s.history {
        StuckRun(setup, s, more);
      }
    } else {
      var more := AppliesNext(setup, s);
    }
  }

  // ----- main result 3: when the import can still be finished -----

  ghost predicate Finishable(setup: Setup, s: State) {
    exists more :: Unattended(more) && After(setup, s, more).job.status == Succeeded
  }

  ghost predicate AllAcceptable(setup: Setup, cursors: seq<JobCursor>) {
    forall i :: 0 <= i < |cursors| ==> PageAcceptable(setup, cursors[i])
  }

  lemma {:induction false} Completes(setup: Setup, s: State) returns (more: seq<Action>)
    requires Inv(setup, s) && Runnable(s.job.status) && AllAcceptable(setup, Path(setup, s.job.cursor))
    requires AnyAttempt(s) || AnyCurrent(s)
    ensures Unattended(more) && After(setup, s, more).job.status == Succeeded
    decreases |Path(setup, s.job.cursor)|
  {
    hide After, Unattended, Inv, Path, PageAcceptable, FetchJobPage, AnyCurrent, AttemptLeft;
    PathUnfolds(setup, s.job.cursor);
    assert PageAcceptable(setup, Path(setup, s.job.cursor)[0]);
    more := AppliesNext(setup, s);
    var t, next := After(setup, s, more), FetchJobPage(setup.remote, setup.scope, s.job.cursor).next;
    if next.Some? {
      assert AttemptLeft(t, PageKey(t.job.version));
      assert AllAcceptable(setup, Path(setup, next.value)) by {
        assert Path(setup, s.job.cursor)[1..] == Path(setup, next.value);
      }
      var rest := Completes(setup, t);
      Joined(setup, s, more, rest);
      more := more + rest;
    }
  }

  lemma {:induction false} Joined(setup: Setup, s: State, more: seq<Action>, rest: seq<Action>)
    requires Unattended(more) && Unattended(rest)
    ensures Unattended(more + rest)
    ensures After(setup, s, more + rest) == After(setup, After(setup, s, more), rest)
    decreases more
  {
    hide Step;
    if more == [] {
      assert more + rest == rest;
    } else {
      assert (more + rest)[1..] == more[1..] + rest;
      Joined(setup, Step(setup, s, more[0]), more[1..], rest);
    }
  }

  // Why the import will not be finished.
  ghost predicate Doomed(setup: Setup, s: State) {
    && s.job.status != Succeeded
    && (!Runnable(s.job.status) || !AllAcceptable(setup, Path(setup, s.job.cursor)) || (!AnyAttempt(s) && !AnyCurrent(s)))
  }

  lemma DoomedStep(setup: Setup, s: State, a: Action)
    requires Inv(setup, s) && Doomed(setup, s) && OnItsOwn(a)
    ensures Doomed(setup, Step(setup, s, a))
  {
    hide InOrder, KeysOk, OneCurrent, Awake, AnyAttempt, AnyCurrent, PageAcceptable, Step, Path, AllAcceptable, FetchJobPage;
    if a.Commit? && Commits(setup, s, a.worker) {
      CommitNeeds(setup, s, a.worker);
      hide SnapshotsOk, Commits, AttemptLeft;
      CommitLeads(setup, s, a.worker);
      OneFewer(setup, s.job.cursor);
    } else {
      OtherPages(setup, s, a);
      if !Runnable(s.job.status) {
        StaysStopped(setup, s, a);
      } else if Runnable(Step(setup, s, a).job.status) && !AnyAttempt(s) && !AnyCurrent(s) {
        CalmStep(setup, s, a);
      }
    }
  }

  // An unacceptable page is not the one just applied, so it is still ahead.
  lemma OneFewer(setup: Setup, cursor: JobCursor)
    requires PageAcceptable(setup, cursor) && !AllAcceptable(setup, Path(setup, cursor))
    ensures var next := FetchJobPage(setup.remote, setup.scope, cursor).next;
      next.Some? && !AllAcceptable(setup, Path(setup, next.value))
  {
    hide Path, FetchJobPage, PageAcceptable;
    PathUnfolds(setup, cursor);
    var i :| 0 <= i < |Path(setup, cursor)| && !PageAcceptable(setup, Path(setup, cursor)[i]);
    assert i > 0;
    assert Path(setup, FetchJobPage(setup.remote, setup.scope, cursor).next.value)[i - 1] == Path(setup, cursor)[i];
  }

  lemma {:induction false} DoomedRun(setup: Setup, s: State, more: seq<Action>)
    requires Inv(setup, s) && Doomed(setup, s) && Unattended(more)
    ensures After(setup, s, more).job.status != Succeeded
    decreases more
  {
    hide Step, Inv;
    if more != [] {
      DoomedStep(setup, s, more[0]);
      OwnInv(setup, s, more[0]);
      hide Doomed;
      DoomedRun(setup, Step(setup, s, more[0]), more[1..]);
    }
  }

  // Over every run: the import can still be finished exactly when all pages
  // ahead of its cursor are acceptable and an attempt, or a worker that has
  // seen the present version, is left.
  lemma FinishesIff(setup: Setup, actions: seq<Action>)
    requires HonestRun(setup, actions) && Runnable(Run(setup, actions).job.status)
    ensures var s := Run(setup, actions);
      Finishable(setup, s) <==> AllAcceptable(setup, Path(setup, s.job.cursor)) && (AnyAttempt(s) || AnyCurrent(s))
  {
    hide Run, HonestRun, After, Unattended, Inv, AllAcceptable, AnyAttempt, AnyCurrent, Path;
    InvRun(setup, actions);
    var s := Run(setup, actions);
    if Doomed(setup, s) {
      forall more | Unattended(more) ensures After(setup, s, more).job.status != Succeeded {
        DoomedRun(setup, s, more);
      }
    } else {
      var more := Completes(setup, s);
    }
  }

  // ----- runs that show the limits -----

  // A state in which nothing has happened but n attempts that led nowhere.
  ghost predicate Attempted(s: State, n: nat) {
    && s.job == Job(Running, 1, FIRST, ZERO, false) && s.workers == map[] && s.nextWorker == n
    && s.entries == map[InitialKey := Entry(if n < MAX_ATTEMPTS then Queued else Exhausted, n)]
  }

  lemma AfterClaim(s: State, n: nat)
    requires Attempted(s, n) && n < MAX_ATTEMPTS
    ensures ClaimStep(s, InitialKey) == s.(
      entries := map[InitialKey := Entry(Leased(n), n + 1)],
      workers := map[n := Worker(InitialKey, n + 1, Started)], nextWorker := n + 1)
  {
  }

  lemma AfterVanish(s: State, n: nat)
    requires Attempted(s, n) && n < MAX_ATTEMPTS
    ensures Gone(ClaimStep(s, InitialKey), n) == s.(
      entries := map[InitialKey := Entry(Leased(n), n + 1)], nextWorker := n + 1)
  {
    AfterClaim(s, n);
    assert ClaimStep(s, InitialKey).workers - {n} == map[];
  }

  lemma AfterRecover(s: State, n: nat)
    requires Attempted(s, n) && n < MAX_ATTEMPTS
    ensures Attempted(RecoverStep(Gone(ClaimStep(s, InitialKey), n), InitialKey), n + 1)
  {
    AfterVanish(s, n);
    hide ClaimStep, Gone;
  }

  // One attempt that ends with the worker dying and the lease expiring.
  lemma DeadAttempt(setup: Setup, actions: seq<Action>, n: nat) returns (more: seq<Action>)
    requires HonestRun(setup, actions) && n < MAX_ATTEMPTS && Attempted(Run(setup, actions), n)
    ensures HonestRun(setup, more) && Attempted(Run(setup, more), n + 1)
  {
    hide Run, HonestRun, ClaimStep, RecoverStep, Gone, Attempted;
    RunSnoc(setup, actions, Claim(InitialKey));
    RunSnoc(setup, actions + [Claim(InitialKey)], Vanish(n));
    RunSnoc(setup, actions + [Claim(InitialKey)] + [Vanish(n)], Recover(InitialKey));
    more := actions + [Claim(InitialKey)] + [Vanish(n)] + [Recover(InitialKey)];
    AfterRecover(Run(setup, actions), n);
  }

  lemma {:induction false} DeadAttempts(setup: Setup, n: nat) returns (actions: seq<Action>)
    requires n <= MAX_ATTEMPTS
    ensures HonestRun(setup, actions) && Attempted(Run(setup, actions), n)
  {
    if n == 0 {
      actions := [];
    } else {
      var before := DeadAttempts(setup, n - 1);
      actions := DeadAttempt(setup, before, n - 1);
    }
  }

  // Wake-ups can be lost: when every attempt of an entry ends with a lost lease,
  // the import stays "running" for ever. It is lost with the last worker, before
  // the runner gives the entry up.
  lemma CrashesStrandAnImport(setup: Setup) returns (dead: seq<Action>, givenUp: seq<Action>)
    ensures HonestRun(setup, dead) && HonestRun(setup, givenUp)
    ensures var s := Run(setup, dead);
      && s.job.status == Running && Lost(setup, s)
      && s.entries == map[InitialKey := Entry(Leased(MAX_ATTEMPTS - 1), MAX_ATTEMPTS)]
    ensures var s := Run(setup, givenUp);
      && s.job.status == Running && Lost(setup, s)
      && s.entries == map[InitialKey := Entry(Exhausted, MAX_ATTEMPTS)]
  {
    var last := MAX_ATTEMPTS - 1;
    var before := DeadAttempts(setup, last);
    dead := before + [Claim(InitialKey)] + [Vanish(last)];
    AfterVanish(Run(setup, before), last);
    hide Run, HonestRun, Lost, ClaimStep, Gone;
    RunSnoc(setup, before, Claim(InitialKey));
    RunSnoc(setup, before + [Claim(InitialKey)], Vanish(last));
    WakeUpLostIff(setup, Run(setup, dead));
    givenUp := DeadAttempts(setup, MAX_ATTEMPTS);
    WakeUpLostIff(setup, Run(setup, givenUp));
  }

  // The other way round, an entry that has been given up is no loss while the
  // worker of its last attempt is only late: it may still finish the import.
  lemma LateWorkerMoves(setup: Setup) returns (actions: seq<Action>)
    ensures HonestRun(setup, actions)
    ensures var s := Run(setup, actions);
      s.job.status == Running && s.entries == map[InitialKey := Entry(Exhausted, MAX_ATTEMPTS)] && !Lost(setup, s)
  {
    var last := MAX_ATTEMPTS - 1;
    var before := DeadAttempts(setup, last);
    actions := before + [Claim(InitialKey)] + [Recover(InitialKey)];
    AfterClaim(Run(setup, before), last);
    hide Run, HonestRun, Lost, ClaimStep;
    RunSnoc(setup, before, Claim(InitialKey));
    RunSnoc(setup, before + [Claim(InitialKey)], Recover(InitialKey));
    var s := Run(setup, actions);
    assert last in s.workers && Live(s.workers[last]);
    WakeUpLostIff(setup, s);
  }
}
