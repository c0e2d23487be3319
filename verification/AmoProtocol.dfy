// The import job as a protocol between background workers, the job runner and
// administrators. One action is one transaction or one read; actions of any
// number of workers interleave freely, workers may die, stall past their lease
// or time out at any point, and fetches may fail at any time.
module AmoProtocol {
  import opened Prelude
  import opened AmoPages
  import opened AmoImport

  // What is fixed for one import: the account, the job's parameters, the
  // writer, and the external ids that earlier imports have mapped.
  datatype Setup = Setup(remote: Remote, scope: Scope, dryRun: bool, writer: Writer, known: Maps)

  const MAX_ATTEMPTS: nat := 5

  // Dedupe keys of the queue entries of one import.
  datatype Key = InitialKey | PageKey(version: nat) | ResumeKey(version: nat) | ReportKey

  // Exhausted: given up after the last attempt.
  datatype EntryStatus = Queued | Leased(worker: nat) | Done | Exhausted

  datatype Entry = Entry(status: EntryStatus, attempts: nat)

  // Where one execution of the page handler is.
  datatype Phase =
    | Started
    | Fetching(version: nat, cursor: JobCursor)
    | Fetched(version: nat, cursor: JobCursor, page: JobPage)
    | Raised(retryable: bool)
    | Rethrown
    | Returned

  datatype Worker = Worker(key: Key, attempts: nat, phase: Phase)

  datatype Job = Job(status: Status, version: nat, cursor: JobCursor, counts: Counters, reported: bool)

  // A pause or resume call between its status check and its compare-and-set.
  datatype Request = Request(resume: bool, expected: nat)

  // history lists the cursors whose pages were applied (for the proofs only).
  datatype State = State(
    job: Job, maps: Maps, entries: map<Key, Entry>,
    workers: map<nat, Worker>, nextWorker: nat,
    requests: map<nat, Request>, nextRequest: nat,
    history: seq<JobCursor>)

  datatype Action =
    | Claim(key: Key)
    | Snapshot(worker: nat)
    | Fetch(worker: nat)
    | Fail(worker: nat, retryable: bool)
    | Commit(worker: nat)
    | Settle(worker: nat)
    | Acknowledge(worker: nat)
    | TimeOut(worker: nat)
    | Vanish(worker: nat)
    | Recover(key: Key)
    | Ask(resume: bool, expected: nat)
    | Execute(request: nat)
    | WriteReport

  // start_import
  function Start(setup: Setup): State {
    State(Job(Running, 1, FIRST, ZERO, false), setup.known, map[InitialKey := Entry(Queued, 0)],
          map[], 0, map[], 0, [])
  }

  predicate Runnable(status: Status) {
    status == Pending || status == Running
  }

  function SetPhase(s: State, w: nat, phase: Phase): State
    requires w in s.workers
  {
    s.(workers := s.workers[w := s.workers[w].(phase := phase)])
  }

  // ----- the job runner -----

  function ClaimStep(s: State, key: Key): State {
    if key != ReportKey && key in s.entries && s.entries[key].status == Queued && s.entries[key].attempts < MAX_ATTEMPTS then
      var attempts := s.entries[key].attempts + 1;
      s.(entries := s.entries[key := Entry(Leased(s.nextWorker), attempts)],
         workers := s.workers[s.nextWorker := Worker(key, attempts, Started)],
         nextWorker := s.nextWorker + 1)
    else s
  }

  // Queue the entry again, or give it up after the last attempt.
  function Requeued(s: State, key: Key): State
    requires key in s.entries
  {
    var e := s.entries[key];
    s.(entries := s.entries[key := e.(status := if e.attempts < MAX_ATTEMPTS then Queued else Exhausted)])
  }

  function Gone(s: State, w: nat): State {
    s.(workers := s.workers - {w})
  }

  predicate Owns(s: State, w: nat)
    requires w in s.workers
  {
    s.workers[w].key in s.entries && s.entries[s.workers[w].key].status == Leased(w)
  }

  // complete_job or fail_job, which only act for the owner of the lease
  function AcknowledgeStep(s: State, w: nat): State {
    if w in s.workers && s.workers[w].phase.Returned? then
      if Owns(s, w) then
        var key := s.workers[w].key;
        Gone(s.(entries := s.entries[key := s.entries[key].(status := Done)]), w)
      else Gone(s, w)
    else if w in s.workers && s.workers[w].phase.Rethrown? then
      Gone(if Owns(s, w) then Requeued(s, s.workers[w].key) else s, w)
    else s
  }

  // The handler is cancelled; the runner records a retryable failure.
  function TimeOutStep(s: State, w: nat): State {
    if w in s.workers then SetPhase(s, w, Rethrown) else s
  }

  // recover_expired_leases; the worker may still be alive
  function RecoverStep(s: State, key: Key): State {
    if key in s.entries && s.entries[key].status.Leased? then Requeued(s, key) else s
  }

  // ----- the page handler -----

  function SnapshotStep(s: State, w: nat): State {
    if w in s.workers && s.workers[w].phase.Started? then
      SetPhase(s, w, if Runnable(s.job.status) then Fetching(s.job.version, s.job.cursor) else Returned)
    else s
  }

  // A page with too many entities is refused.
  function FetchStep(setup: Setup, s: State, w: nat): State {
    if w in s.workers && s.workers[w].phase.Fetching? then
      var p := s.workers[w].phase;
      var page := FetchJobPage(setup.remote, setup.scope, p.cursor);
      SetPhase(s, w, if |page.entities| > PAGE_LIMIT then Raised(false) else Fetched(p.version, p.cursor, page))
    else s
  }

  function FailStep(s: State, w: nat, retryable: bool): State {
    if w in s.workers && (s.workers[w].phase.Fetching? || s.workers[w].phase.Fetched?) then
      SetPhase(s, w, Raised(retryable))
    else s
  }

  // The effect of apply_import_page and of the enqueue in the same transaction.
  function Applied(setup: Setup, s: State, page: JobPage): State {
    var (maps, counters) := Apply(s.maps, page.entities, setup.dryRun, setup.writer);
    var version := s.job.version + 1;
    s.(job := s.job.(
         status := if page.next.None? then Succeeded else Running,
         cursor := if page.next.None? then FIRST else page.next.value,
         counts := Plus(s.job.counts, counters), version := version),
       maps := maps,
       entries := s.entries[(if page.next.None? then ReportKey else PageKey(version)) := Entry(Queued, 0)],
       history := s.history + [s.job.cursor])
  }

  function CommitStep(setup: Setup, s: State, w: nat): State {
    if w in s.workers && s.workers[w].phase.Fetched? then
      var p := s.workers[w].phase;
      if !Runnable(s.job.status) || p.version != s.job.version then SetPhase(s, w, Returned)
      else if Rejection(s.job.status, setup.scope, p.page).Some? then SetPhase(s, w, Raised(false))
      else SetPhase(Applied(setup, s, p.page), w, Returned)
    else s
  }

  // The error transaction of the handler.
  function SettleStep(s: State, w: nat): State {
    if w in s.workers && s.workers[w].phase.Raised? then
      var again := s.workers[w].phase.retryable && s.workers[w].attempts < MAX_ATTEMPTS;
      var t := if Runnable(s.job.status) && !again
               then s.(job := s.job.(status := Failed, version := s.job.version + 1)) else s;
      SetPhase(t, w, if again then Rethrown else Returned)
    else s
  }

  // ----- administrators and the report -----

  predicate Allowed(status: Status, resume: bool) {
    if resume then status == Paused || status == Failed else Runnable(status)
  }

  function AskStep(s: State, resume: bool, expected: nat): State {
    if Allowed(s.job.status, resume) then
      s.(requests := s.requests[s.nextRequest := Request(resume, expected)], nextRequest := s.nextRequest + 1)
    else s
  }

  function ExecuteStep(s: State, r: nat): State {
    if r in s.requests then
      var t, version := s.(requests := s.requests - {r}), s.requests[r].expected + 1;
      if s.job.version != s.requests[r].expected then t
      else if s.requests[r].resume then
        t.(job := t.job.(status := Running, version := version),
           entries := t.entries[ResumeKey(version) := Entry(Queued, 0)])
      else t.(job := t.job.(status := Paused, version := version))
    else s
  }

  function ReportStep(s: State): State {
    if ReportKey in s.entries && s.job.status == Succeeded && !s.job.reported then
      s.(job := s.job.(reported := true, version := s.job.version + 1))
    else s
  }

  // An action that is not possible in a state leaves it as it is.
  function Step(setup: Setup, s: State, a: Action): State {
    match a
    case Claim(key) => ClaimStep(s, key)
    case Snapshot(w) => SnapshotStep(s, w)
    case Fetch(w) => FetchStep(setup, s, w)
    case Fail(w, retryable) => FailStep(s, w, retryable)
    case Commit(w) => CommitStep(setup, s, w)
    case Settle(w) => SettleStep(s, w)
    case Acknowledge(w) => AcknowledgeStep(s, w)
    case TimeOut(w) => TimeOutStep(s, w)
    case Vanish(w) => Gone(s, w)
    case Recover(key) => RecoverStep(s, key)
    case Ask(resume, expected) => AskStep(s, resume, expected)
    case Execute(r) => ExecuteStep(s, r)
    case WriteReport => ReportStep(s)
  }

  function Run(setup: Setup, actions: seq<Action>): State {
    if actions == [] then Start(setup)
    else Step(setup, Run(setup, actions[..|actions| - 1]), actions[|actions| - 1])
  }

  // A client names a version it has read, so never one that is still to come.
  predicate Honest(s: State, a: Action) {
    a.Ask? ==> a.expected <= s.job.version
  }

  predicate HonestRun(setup: Setup, actions: seq<Action>) {
    actions == []
    || (HonestRun(setup, actions[..|actions| - 1])
        && Honest(Run(setup, actions[..|actions| - 1]), actions[|actions| - 1]))
  }

  // ----- the entry of the present version -----

  // Not acknowledged yet: it is waiting, or leased to a worker that is gone or
  // has not come to an end with the job's present version.
  predicate Unfinished(s: State, key: Key) {
    && key != ReportKey && key in s.entries
    && match s.entries[key].status
       case Queued => true
       case Leased(w) =>
         w !in s.workers
         || (match s.workers[w].phase
             case Started => true
             case Fetching(v, _) => v == s.job.version
             case Fetched(v, _, _) => v == s.job.version
             case Raised(_) => true
             case Rethrown => true
             case Returned => false)
       case Done => false
       case Exhausted => false
  }

  // The entry that was queued when the job reached its present version.
  predicate CurrentEntry(s: State, key: Key) {
    && key in s.entries
    && match key
       case InitialKey => s.job.version == 1
       case PageKey(v) => v == s.job.version
       case ResumeKey(v) => v == s.job.version
       case ReportKey => false
  }

  // ----- the sequential pass -----

  function Path(setup: Setup, cursor: JobCursor): seq<JobCursor>
    decreases CursorRank(setup.remote, setup.scope, cursor).entities, CursorRank(setup.remote, setup.scope, cursor).partitions,
              CursorRank(setup.remote, setup.scope, cursor).pages, CursorRank(setup.remote, setup.scope, cursor).offsets
  {
    var next := FetchJobPage(setup.remote, setup.scope, cursor).next;
    if next.None? then [cursor]
    else
      StepDecreases(setup.remote, setup.scope, cursor);
      [cursor] + Path(setup, next.value)
  }

  // Applying the pages at the given cursors one after the other.
  function Pass(setup: Setup, cursors: seq<JobCursor>): (Maps, Counters) {
    if cursors == [] then (setup.known, ZERO)
    else
      var (maps, counts) := Pass(setup, cursors[..|cursors| - 1]);
      var page := FetchJobPage(setup.remote, setup.scope, cursors[|cursors| - 1]);
      var (after, counters) := Apply(maps, page.entities, setup.dryRun, setup.writer);
      (after, Plus(counts, counters))
  }

  // ----- invariant -----

  // Safety: what was applied is an initial part of the sequential pass.
  ghost predicate InOrder(setup: Setup, s: State) {
    && (s.maps, s.job.counts) == Pass(setup, s.history)
    && (if s.job.status == Succeeded then s.history == Path(setup, FIRST)
        else s.history + Path(setup, s.job.cursor) == Path(setup, FIRST))
  }

  // A worker's snapshot is right as long as its version is current.
  ghost predicate SnapshotOk(setup: Setup, s: State, phase: Phase) {
    match phase
    case Fetching(v, c) => v <= s.job.version && (v == s.job.version && Runnable(s.job.status) ==> c == s.job.cursor)
    case Fetched(v, c, page) =>
      v <= s.job.version && page == FetchJobPage(setup.remote, setup.scope, c) && |page.entities| <= PAGE_LIMIT
      && (v == s.job.version && Runnable(s.job.status) ==> c == s.job.cursor)
    case _ => true
  }

  ghost predicate SnapshotsOk(setup: Setup, s: State) {
    forall w :: w in s.workers ==> w < s.nextWorker && SnapshotOk(setup, s, s.workers[w].phase)
  }

  // A request whose version is still current was checked against the current status.
  ghost predicate RequestsOk(s: State) {
    forall r :: r in s.requests ==>
      r < s.nextRequest && s.requests[r].expected <= s.job.version
      && (s.requests[r].expected == s.job.version ==> Allowed(s.job.status, s.requests[r].resume))
  }

  // Keys carry versions that were reached; the report is asked for once.
  ghost predicate KeysOk(s: State) {
    && s.job.version >= 1
    && (forall key :: key in s.entries && (key.PageKey? || key.ResumeKey?) ==> 2 <= key.version <= s.job.version)
    && (ReportKey in s.entries ==> s.job.status == Succeeded)
    && (forall key :: key in s.entries && s.entries[key].status.Leased? ==>
          s.entries[key].status.worker < s.nextWorker
          && (s.entries[key].status.worker in s.workers ==> s.workers[s.entries[key].status.worker].key == key))
    && (forall key :: key in s.entries && s.entries[key].status == Queued ==> s.entries[key].attempts < MAX_ATTEMPTS)
    && (forall key :: key in s.entries && s.entries[key].status == Exhausted ==> s.entries[key].attempts >= MAX_ATTEMPTS)
  }

  // A running job has an entry queued for its present version, which is not
  // acknowledged: it is unfinished or has been given up.
  ghost predicate Awake(s: State) {
    Runnable(s.job.status) ==> exists key :: CurrentEntry(s, key) && (Unfinished(s, key) || s.entries[key].status == Exhausted)
  }

  ghost predicate OneCurrent(s: State) {
    forall j, k :: CurrentEntry(s, j) && CurrentEntry(s, k) ==> j == k
  }

  ghost predicate Inv(setup: Setup, s: State) {
    InOrder(setup, s) && SnapshotsOk(setup, s) && RequestsOk(s) && KeysOk(s) && OneCurrent(s) && Awake(s)
  }

  // ----- the invariant is kept by every action -----

  // Nothing that the order of pages depends on changed.
  ghost predicate SamePages(s: State, t: State) {
    && t.maps == s.maps && t.history == s.history
    && t.job.counts == s.job.counts && t.job.cursor == s.job.cursor
    && (t.job.status == Succeeded <==> s.job.status == Succeeded)
  }

  lemma OrderKept(setup: Setup, s: State, t: State)
    requires InOrder(setup, s) && SamePages(s, t)
    ensures InOrder(setup, t)
  {
  }

  lemma OrderStep(setup: Setup, s: State, a: Action)
    requires Inv(setup, s) && Honest(s, a)
    ensures InOrder(setup, Step(setup, s, a))
  {
    hide Path, Pass, Apply, FetchJobPage, InOrder, Step, Applied, KeysOk, Awake;
    var t := Step(setup, s, a);
    OtherPages(setup, s, a);
    if a.Commit? && Commits(setup, s, a.worker) {
      CommitApplies(setup, s, a.worker);
      assert SnapshotOk(setup, s, s.workers[a.worker].phase);
      AppliedInOrder(setup, s, s.workers[a.worker].phase.page);
      OrderKept(setup, Applied(setup, s, s.workers[a.worker].phase.page), t);
    } else {
      OrderKept(setup, s, t);
    }
  }

  // Only a commit that goes through touches what the order depends on.
  lemma OtherPages(setup: Setup, s: State, a: Action)
    requires RequestsOk(s)
    ensures (a.Commit? && Commits(setup, s, a.worker)) || SamePages(s, Step(setup, s, a))
  {
    hide Path, Pass, Apply, FetchJobPage, Unfinished, ExecuteStep, Applied;
    match a
    case Execute(r) => ExecuteStatus(s, r);
    case _ =>
  }

  lemma CommitApplies(setup: Setup, s: State, w: nat)
    requires Commits(setup, s, w)
    ensures SamePages(Applied(setup, s, s.workers[w].phase.page), CommitStep(setup, s, w))
    ensures Step(setup, s, Commit(w)) == CommitStep(setup, s, w)
  {
    hide Applied, Rejection;
  }

  // The commit goes through.
  predicate Commits(setup: Setup, s: State, w: nat) {
    && w in s.workers && s.workers[w].phase.Fetched?
    && Runnable(s.job.status) && s.workers[w].phase.version == s.job.version
    && Rejection(s.job.status, setup.scope, s.workers[w].phase.page).None?
  }

  lemma ExecuteStatus(s: State, r: nat)
    requires RequestsOk(s)
    ensures SamePages(s, ExecuteStep(s, r)) && (s.job.status == Succeeded ==> ExecuteStep(s, r).job == s.job)
  {
  }

  // The applied page is the one at the job's cursor, and the pass moves on by it.
  lemma AppliedInOrder(setup: Setup, s: State, page: JobPage)
    requires InOrder(setup, s) && Runnable(s.job.status)
    requires page == FetchJobPage(setup.remote, setup.scope, s.job.cursor)
    ensures InOrder(setup, Applied(setup, s, page))
  {
    hide Apply, FetchJobPage;
    var t := Applied(setup, s, page);
    assert t.history[..|t.history| - 1] == s.history;
    if page.next.Some? {
      assert s.history + ([s.job.cursor] + Path(setup, page.next.value)) == t.history + Path(setup, page.next.value);
    }
  }

  // A worker's snapshot stays right unless the worker itself moves.
  lemma SnapshotCarried(setup: Setup, s: State, t: State, phase: Phase)
    requires SnapshotOk(setup, s, phase) && s.job.version <= t.job.version
    requires t.job.version == s.job.version ==> t.job == s.job
    ensures SnapshotOk(setup, t, phase)
  {
  }

  lemma SnapshotsStep(setup: Setup, s: State, a: Action)
    requires Inv(setup, s) && Honest(s, a)
    ensures SnapshotsOk(setup, Step(setup, s, a))
  {
    hide InOrder, Awake, Path, Pass, Apply, FetchJobPage, Unfinished, Rejection, KeysOk, RequestsOk, SnapshotOk, Step;
    var t := Step(setup, s, a);
    SameVersionStatus(setup, s, a);
    forall w | w in t.workers ensures w < t.nextWorker && SnapshotOk(setup, t, t.workers[w].phase) {
      PhaseStep(setup, s, a, w);
      if w in s.workers && t.workers[w].phase == s.workers[w].phase {
        SnapshotCarried(setup, s, t, s.workers[w].phase);
      }
    }
  }

  // Where a worker's phase comes from.
  lemma PhaseStep(setup: Setup, s: State, a: Action, w: nat)
    requires SnapshotsOk(setup, s) && RequestsOk(s) && w in Step(setup, s, a).workers
    ensures var t := Step(setup, s, a);
      && w < t.nextWorker
      && ((w in s.workers && t.workers[w].phase == s.workers[w].phase) || SnapshotOk(setup, t, t.workers[w].phase))
  {
    hide Path, Pass, Apply, FetchJobPage, Rejection, Unfinished, Applied, CommitStep, ExecuteStep, ClaimStep, SettleStep, AcknowledgeStep, Requeued;
    assert w in s.workers ==> SnapshotOk(setup, s, s.workers[w].phase);
    match a
    case Commit(x) => CommitPhase(setup, s, x, w);
    case Execute(x) => ExecuteWorkers(s, x);
    case Claim(key) => ClaimPhase(setup, s, key, w);
    case Settle(x) => SettlePhase(s, x, w);
    case Acknowledge(x) => AcknowledgeWorkers(s, x);
    case Recover(key) => RecoverWorkers(s, key);
    case _ =>
  }

  lemma AcknowledgeWorkers(s: State, x: nat)
    ensures var t := AcknowledgeStep(s, x);
      t.nextWorker == s.nextWorker && forall w :: w in t.workers ==> w in s.workers && t.workers[w] == s.workers[w]
  {
    hide Unfinished;
  }

  lemma RecoverWorkers(s: State, key: Key)
    ensures RecoverStep(s, key).workers == s.workers && RecoverStep(s, key).nextWorker == s.nextWorker
  {
    hide Unfinished;
  }

  lemma ExecuteWorkers(s: State, r: nat)
    ensures ExecuteStep(s, r).workers == s.workers && ExecuteStep(s, r).nextWorker == s.nextWorker
  {
  }

  lemma ClaimPhase(setup: Setup, s: State, key: Key, w: nat)
    requires w in ClaimStep(s, key).workers && (w in s.workers ==> w < s.nextWorker)
    ensures var t := ClaimStep(s, key);
      w < t.nextWorker && ((w in s.workers && t.workers[w].phase == s.workers[w].phase) || t.workers[w].phase == Started)
  {
  }

  lemma SettlePhase(s: State, x: nat, w: nat)
    requires w in SettleStep(s, x).workers
    ensures var t := SettleStep(s, x);
      && t.nextWorker == s.nextWorker && w in s.workers
      && (t.workers[w].phase == s.workers[w].phase || t.workers[w].phase.Rethrown? || t.workers[w].phase.Returned?)
  {
  }

  lemma CommitPhase(setup: Setup, s: State, x: nat, w: nat)
    requires w in CommitStep(setup, s, x).workers
    ensures CommitStep(setup, s, x).nextWorker == s.nextWorker && w in s.workers
    ensures CommitStep(setup, s, x).workers[w].phase == s.workers[w].phase
         || CommitStep(setup, s, x).workers[w].phase.Returned? || CommitStep(setup, s, x).workers[w].phase.Raised?
  {
    hide Apply, FetchJobPage, Rejection;
  }

  lemma RequestsStep(setup: Setup, s: State, a: Action)
    requires Inv(setup, s) && Honest(s, a)
    ensures RequestsOk(Step(setup, s, a))
  {
    hide InOrder, Awake, Path, Pass, Apply, FetchJobPage, Unfinished, Rejection, SnapshotsOk, KeysOk, Step;
    SameVersionStatus(setup, s, a);
    forall r | r in Step(setup, s, a).requests
      ensures var t := Step(setup, s, a);
        r < t.nextRequest && t.requests[r].expected <= t.job.version
        && (t.requests[r].expected == t.job.version ==> Allowed(t.job.status, t.requests[r].resume))
    {
      RequestOrigin(setup, s, a, r);
    }
  }

  // A request was there before, or was just checked.
  lemma ExecuteOrigin(s: State, x: nat, r: nat)
    requires r in ExecuteStep(s, x).requests
    ensures var t := ExecuteStep(s, x); s.nextRequest == t.nextRequest && r in s.requests && t.requests[r] == s.requests[r]
  {
  }

  lemma OtherOrigin(setup: Setup, s: State, a: Action)
    requires !a.Execute? && !a.Ask?
    ensures var t := Step(setup, s, a); s.nextRequest == t.nextRequest && s.requests == t.requests
  {
    hide CommitStep, AskStep, ExecuteStep, FetchJobPage;
    match a
    case Commit(w) => CommitRequests(setup, s, w);
    case _ =>
  }

  lemma CommitRequests(setup: Setup, s: State, w: nat)
    ensures var t := CommitStep(setup, s, w); s.nextRequest == t.nextRequest && s.requests == t.requests
  {
    hide Path, Pass, Apply, FetchJobPage, Rejection;
  }

  lemma RequestOrigin(setup: Setup, s: State, a: Action, r: nat)
    requires r in Step(setup, s, a).requests
    ensures var t := Step(setup, s, a);
      && s.nextRequest <= t.nextRequest
      && ((r in s.requests && t.requests[r] == s.requests[r])
          || (a == Ask(t.requests[r].resume, t.requests[r].expected) && r < t.nextRequest && t.job == s.job
              && Allowed(s.job.status, t.requests[r].resume)))
  {
    hide Path, Pass, Apply, FetchJobPage, Unfinished, Rejection;
    hide CommitStep, ExecuteStep, SnapshotStep, FetchStep, FailStep, SettleStep, AcknowledgeStep, ClaimStep, RecoverStep;
    match a
    case Execute(x) => ExecuteOrigin(s, x, r);
    case Ask(resume, expected) =>
    case WriteReport =>
    case TimeOut(w) =>
    case Vanish(w) =>
    case _ => OtherOrigin(setup, s, a);
  }

  lemma KeysStep(setup: Setup, s: State, a: Action)
    requires Inv(setup, s) && Honest(s, a)
    ensures KeysOk(Step(setup, s, a))
  {
    hide InOrder, Awake, Path, Pass, Apply, FetchJobPage, Unfinished, Rejection, SnapshotsOk, KeysOk, RequestsOk;
    hide CommitStep, AcknowledgeStep, ClaimStep, RecoverStep, ExecuteStep, Requeued;
    match a
    case Commit(w) => KeysCommit(setup, s, w);
    case Acknowledge(w) => KeysAcknowledge(s, w);
    case Claim(key) => KeysClaim(s, key);
    case Recover(key) => KeysRecover(s, key);
    case Execute(r) => KeysExecute(s, r);
    case _ => StepFramed(setup, s, a); hide Framed; KeysFramed(s, Step(setup, s, a));
  }

  // Nothing is queued; workers only move on or disappear.
  ghost predicate Framed(s: State, t: State) {
    && t.entries == s.entries && t.nextWorker == s.nextWorker && s.job.version <= t.job.version
    && (s.job.status == Succeeded ==> t.job.status == Succeeded)
    && (forall w :: w in t.workers ==> w in s.workers && t.workers[w].key == s.workers[w].key)
  }

  lemma StepFramed(setup: Setup, s: State, a: Action)
    requires !a.Commit? && !a.Acknowledge? && !a.Claim? && !a.Recover? && !a.Execute?
    ensures Framed(s, Step(setup, s, a))
  {
    hide CommitStep, AcknowledgeStep, ClaimStep, RecoverStep, ExecuteStep, SettleStep, FetchJobPage;
    if a.Settle? {
      SettleFramed(s, a.worker);
    }
  }

  lemma SettleFramed(s: State, w: nat)
    ensures Framed(s, SettleStep(s, w))
  {
  }

  lemma KeysFramed(s: State, t: State)
    requires KeysOk(s) && Framed(s, t)
    ensures KeysOk(t)
  {
  }

  lemma KeysRecover(s: State, key: Key)
    requires KeysOk(s)
    ensures KeysOk(RecoverStep(s, key))
  {
    hide Requeued, KeysOk;
    if key in s.entries {
      KeysRequeued(s, key);
    }
  }

  lemma KeysExecute(s: State, r: nat)
    requires KeysOk(s) && RequestsOk(s)
    ensures KeysOk(ExecuteStep(s, r))
  {
  }

  lemma KeysClaim(s: State, key: Key)
    requires KeysOk(s)
    ensures KeysOk(ClaimStep(s, key))
  {
  }

  lemma KeysRequeued(s: State, key: Key)
    requires KeysOk(s) && key in s.entries
    ensures KeysOk(Requeued(s, key))
  {
    hide Unfinished;
  }

  lemma KeysAcknowledge(s: State, w: nat)
    requires KeysOk(s)
    ensures KeysOk(AcknowledgeStep(s, w))
  {
    hide Unfinished;
    if w in s.workers && s.workers[w].phase.Rethrown? && Owns(s, w) {
      KeysRequeued(s, s.workers[w].key);
      KeysGone(Requeued(s, s.workers[w].key), w);
    } else if w in s.workers {
      KeysGone(s, w);
    }
  }

  lemma KeysGone(s: State, w: nat)
    requires KeysOk(s)
    ensures KeysOk(Gone(s, w))
  {
  }

  lemma KeysCommit(setup: Setup, s: State, w: nat)
    requires KeysOk(s)
    ensures KeysOk(CommitStep(setup, s, w))
  {
    hide Apply, Rejection;
  }

  // While the job stays at its version and runs, an unfinished entry stays one,
  // or is given up.
  lemma UnfinishedStep(setup: Setup, s: State, a: Action, key: Key)
    requires KeysOk(s) && Unfinished(s, key)
    requires var t := Step(setup, s, a); t.job.version == s.job.version && Runnable(t.job.status)
    ensures var t := Step(setup, s, a);
      Unfinished(t, key) || (key in t.entries && t.entries[key].status == Exhausted)
  {
    hide ClaimStep, SnapshotStep, FetchStep, FailStep, CommitStep, SettleStep, AcknowledgeStep, RecoverStep, ExecuteStep, Unfinished;
    match a
    case Commit(w) => UnfinishedCommit(setup, s, w, key);
    case Acknowledge(w) => UnfinishedAcknowledge(s, w, key);
    case Recover(k) => UnfinishedLease(s, k, key);
    case Claim(k) => UnfinishedLease(s, k, key);
    case Execute(r) => UnfinishedExecute(s, r, key);
    case _ => UnfinishedOther(setup, s, a, key);
  }

  lemma UnfinishedLease(s: State, k: Key, key: Key)
    requires KeysOk(s) && Unfinished(s, key)
    ensures Unfinished(ClaimStep(s, k), key)
    ensures var t := RecoverStep(s, k); Unfinished(t, key) || (key in t.entries && t.entries[key].status == Exhausted)
  {
  }

  lemma UnfinishedExecute(s: State, r: nat, key: Key)
    requires KeysOk(s) && Unfinished(s, key)
    requires var t := ExecuteStep(s, r); t.job.version == s.job.version
    ensures Unfinished(ExecuteStep(s, r), key)
  {
  }

  lemma UnfinishedCommit(setup: Setup, s: State, w: nat, key: Key)
    requires KeysOk(s) && Unfinished(s, key)
    requires var t := CommitStep(setup, s, w); t.job.version == s.job.version && Runnable(t.job.status)
    ensures Unfinished(CommitStep(setup, s, w), key)
  {
    hide Apply, Rejection;
  }

  lemma UnfinishedAcknowledge(s: State, w: nat, key: Key)
    requires KeysOk(s) && Unfinished(s, key) && Runnable(AcknowledgeStep(s, w).job.status)
    ensures var t := AcknowledgeStep(s, w);
      Unfinished(t, key) || (key in t.entries && t.entries[key].status == Exhausted)
  {
    hide Unfinished;
    if w in s.workers && s.workers[w].key == key {
      OwnAcknowledge(s, w);
    } else {
      OtherAcknowledge(s, w, key);
    }
  }

  lemma OwnAcknowledge(s: State, w: nat)
    requires KeysOk(s) && w in s.workers && Unfinished(s, s.workers[w].key)
    ensures var t, key := AcknowledgeStep(s, w), s.workers[w].key;
      Unfinished(t, key) || (key in t.entries && t.entries[key].status == Exhausted)
  {
  }

  lemma OtherAcknowledge(s: State, w: nat, key: Key)
    requires KeysOk(s) && Unfinished(s, key) && (w in s.workers ==> s.workers[w].key != key)
    ensures Unfinished(AcknowledgeStep(s, w), key)
  {
  }

  lemma UnfinishedOther(setup: Setup, s: State, a: Action, key: Key)
    requires KeysOk(s) && Unfinished(s, key)
    requires !a.Commit? && !a.Acknowledge? && !a.Recover? && !a.Claim? && !a.Execute?
    requires var t := Step(setup, s, a); t.job.version == s.job.version && Runnable(t.job.status)
    ensures Unfinished(Step(setup, s, a), key)
  {
    hide Path, Pass, Apply, FetchJobPage, Rejection;
  }

  lemma GivenUpStep(setup: Setup, s: State, a: Action, key: Key)
    requires KeysOk(s) && key in s.entries && s.entries[key].status.Exhausted?
    requires Step(setup, s, a).job.version == s.job.version
    ensures var t := Step(setup, s, a); key in t.entries && t.entries[key] == s.entries[key]
  {
    hide CommitStep, ExecuteStep, SnapshotStep, FetchStep, FailStep, SettleStep, AcknowledgeStep, ClaimStep, RecoverStep;
    match a
    case Claim(k) => GivenUpLease(s, k, key);
    case Recover(k) => GivenUpLease(s, k, key);
    case Acknowledge(w) => GivenUpAcknowledge(s, w, key);
    case Commit(w) => CommitVersion(setup, s, w);
    case Execute(r) => ExecuteVersion(s, r);
    case Snapshot(_) => PhaseKeepsEntries(setup, s, a);
    case Fetch(_) => PhaseKeepsEntries(setup, s, a);
    case Fail(_, _) => PhaseKeepsEntries(setup, s, a);
    case Settle(_) => PhaseKeepsEntries(setup, s, a);
    case _ =>
  }

  lemma GivenUpLease(s: State, k: Key, key: Key)
    requires key in s.entries && s.entries[key].status.Exhausted?
    ensures var t := ClaimStep(s, k); key in t.entries && t.entries[key] == s.entries[key]
    ensures var t := RecoverStep(s, k); key in t.entries && t.entries[key] == s.entries[key]
  {
  }

  lemma GivenUpAcknowledge(s: State, w: nat, key: Key)
    requires key in s.entries && s.entries[key].status.Exhausted?
    ensures var t := AcknowledgeStep(s, w); key in t.entries && t.entries[key] == s.entries[key]
  {
  }

  lemma CommitVersion(setup: Setup, s: State, w: nat)
    ensures var t := CommitStep(setup, s, w); t.job.version == s.job.version ==> t.entries == s.entries
  {
    hide Path, Pass, Apply, FetchJobPage, Rejection;
  }

  lemma ExecuteVersion(s: State, r: nat)
    ensures var t := ExecuteStep(s, r); t.job.version == s.job.version ==> t.entries == s.entries
  {
  }

  lemma PhaseKeepsEntries(setup: Setup, s: State, a: Action)
    requires a.Snapshot? || a.Fetch? || a.Fail? || a.Settle?
    ensures Step(setup, s, a).entries == s.entries
  {
    hide Path, Pass, Apply, FetchJobPage, Rejection;
  }

  // A step to a new version that leaves the job running queues a new entry.
  lemma NewVersionQueues(setup: Setup, s: State, a: Action)
    requires RequestsOk(s)
    requires var t := Step(setup, s, a); t.job.version != s.job.version && Runnable(t.job.status)
    ensures var t := Step(setup, s, a);
      Unfinished(t, PageKey(t.job.version)) || Unfinished(t, ResumeKey(t.job.version))
  {
    hide ClaimStep, SnapshotStep, FetchStep, FailStep, CommitStep, AcknowledgeStep, RecoverStep, ExecuteStep, Unfinished;
    match a
    case Commit(w) => CommitQueues(setup, s, w);
    case Execute(r) => ExecuteQueues(s, r);
    case Settle(w) =>
    case WriteReport =>
    case _ => SameVersion(setup, s, a);
  }

  lemma CommitQueues(setup: Setup, s: State, w: nat)
    ensures var t := CommitStep(setup, s, w);
      t.job.version != s.job.version && Runnable(t.job.status) ==> Unfinished(t, PageKey(t.job.version))
  {
    hide Path, Pass, Apply, FetchJobPage, Rejection;
  }

  lemma ExecuteQueues(s: State, r: nat)
    ensures var t := ExecuteStep(s, r);
      t.job.version != s.job.version && Runnable(t.job.status) ==> Unfinished(t, ResumeKey(t.job.version))
  {
  }

  lemma SameVersion(setup: Setup, s: State, a: Action)
    requires !a.Commit? && !a.Execute? && !a.Settle? && !a.WriteReport?
    ensures Step(setup, s, a).job.version == s.job.version
  {
    hide Path, Pass, Apply, FetchJobPage, Rejection, CommitStep, ExecuteStep;
  }

  lemma AwakeStep(setup: Setup, s: State, a: Action)
    requires Inv(setup, s) && Honest(s, a)
    ensures Awake(Step(setup, s, a))
  {
    hide InOrder, SnapshotsOk, KeysOk, OneCurrent, Step, Unfinished;
    var t := Step(setup, s, a);
    if Runnable(t.job.status) {
      if t.job.version != s.job.version {
        NewVersionQueues(setup, s, a);
        UnfinishedAreEntries(t, PageKey(t.job.version));
        UnfinishedAreEntries(t, ResumeKey(t.job.version));
        assert CurrentEntry(t, PageKey(t.job.version)) || CurrentEntry(t, ResumeKey(t.job.version));
      } else {
        SameVersionStatus(setup, s, a);
        var key :| CurrentEntry(s, key) && (Unfinished(s, key) || s.entries[key].status == Exhausted);
        if Unfinished(s, key) {
          UnfinishedStep(setup, s, a, key);
          UnfinishedAreEntries(t, key);
        } else {
          GivenUpStep(setup, s, a, key);
        }
        assert CurrentEntry(t, key);
      }
    }
  }

  lemma UnfinishedAreEntries(s: State, key: Key)
    ensures Unfinished(s, key) ==> key in s.entries
  {
  }

  // Where a queue entry comes from.
  lemma EntryOrigin(setup: Setup, s: State, a: Action, key: Key)
    requires key in Step(setup, s, a).entries && key !in s.entries
    ensures var t := Step(setup, s, a);
      && t.job.version == s.job.version + 1
      && ((a.Commit? && (key == ReportKey || key == PageKey(t.job.version)))
          || (a.Execute? && key == ResumeKey(t.job.version)))
  {
    hide Path, Pass, Apply, FetchJobPage, Rejection, Unfinished;
    match a
    case Commit(w) => hide ExecuteStep;
    case Execute(r) => hide CommitStep;
    case _ => hide ExecuteStep, CommitStep, Applied;
  }

  lemma OneCurrentStep(setup: Setup, s: State, a: Action)
    requires KeysOk(s) && RequestsOk(s) && OneCurrent(s)
    ensures OneCurrent(Step(setup, s, a))
  {
    hide Step, RequestsOk, Unfinished;
    var t := Step(setup, s, a);
    SameVersionStatus(setup, s, a);
    forall j, k | CurrentEntry(t, j) && CurrentEntry(t, k) ensures j == k {
      CurrentOrigin(setup, s, a, j);
      CurrentOrigin(setup, s, a, k);
    }
  }

  // A current entry was current before, or has just been queued.
  lemma CurrentOrigin(setup: Setup, s: State, a: Action, key: Key)
    requires KeysOk(s) && RequestsOk(s) && CurrentEntry(Step(setup, s, a), key)
    ensures var t := Step(setup, s, a);
      if t.job.version == s.job.version then CurrentEntry(s, key)
      else (a.Commit? && key == PageKey(t.job.version)) || (a.Execute? && key == ResumeKey(t.job.version))
  {
    hide Step, RequestsOk, Unfinished;
    SameVersionStatus(setup, s, a);
    if key !in s.entries {
      EntryOrigin(setup, s, a, key);
    }
  }

  lemma SameVersionStatus(setup: Setup, s: State, a: Action)
    requires RequestsOk(s)
    ensures var t := Step(setup, s, a); t.job.version == s.job.version ==> t.job == s.job
    ensures s.job.version <= Step(setup, s, a).job.version
  {
    hide Path, Pass, Apply, FetchJobPage, Rejection, Unfinished;
  }

  lemma InvStep(setup: Setup, s: State, a: Action)
    requires Inv(setup, s) && Honest(s, a)
    ensures Inv(setup, Step(setup, s, a))
  {
    OrderStep(setup, s, a);
    SnapshotsStep(setup, s, a);
    RequestsStep(setup, s, a);
    KeysStep(setup, s, a);
    OneCurrentStep(setup, s, a);
    AwakeStep(setup, s, a);
  }

  lemma {:induction false} InvRun(setup: Setup, actions: seq<Action>)
    requires HonestRun(setup, actions)
    ensures Inv(setup, Run(setup, actions))
  {
    if actions == [] {
      assert CurrentEntry(Start(setup), InitialKey) && Unfinished(Start(setup), InitialKey);
      assert [] + Path(setup, FIRST) == Path(setup, FIRST);
    } else {
      InvRun(setup, actions[..|actions| - 1]);
      InvStep(setup, Run(setup, actions[..|actions| - 1]), actions[|actions| - 1]);
    }
  }
}
