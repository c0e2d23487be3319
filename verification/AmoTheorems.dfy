// What the import protocol promises over every run.
module AmoTheorems {
  import opened Prelude
  import opened AmoPages
  import opened AmoImport
  import opened AmoProtocol

  // ----- pages are applied in order, each at most once -----

  lemma {:induction false} PathBelow(setup: Setup, cursor: JobCursor, i: nat)
    requires i < |Path(setup, cursor)|
    ensures i > 0 ==> Below(CursorRank(setup.remote, setup.scope, Path(setup, cursor)[i]), CursorRank(setup.remote, setup.scope, cursor))
    ensures i == 0 ==> Path(setup, cursor)[i] == cursor
    ensures Path(setup, cursor)[i..] == Path(setup, Path(setup, cursor)[i])
    decreases i
  {
    hide Path, FetchJobPage, CursorRank, Below;
    PathUnfolds(setup, cursor);
    if i > 0 {
      var next := FetchJobPage(setup.remote, setup.scope, cursor).next.value;
      StepDecreases(setup.remote, setup.scope, cursor);
      PathBelow(setup, next, i - 1);
      BelowTransitive(CursorRank(setup.remote, setup.scope, Path(setup, cursor)[i]),
                      CursorRank(setup.remote, setup.scope, next), CursorRank(setup.remote, setup.scope, cursor));
    }
  }

  lemma PathUnfolds(setup: Setup, cursor: JobCursor)
    ensures var next := FetchJobPage(setup.remote, setup.scope, cursor).next;
      Path(setup, cursor) == if next.None? then [cursor] else [cursor] + Path(setup, next.value)
  {
    hide FetchJobPage, CursorRank;
  }

  lemma BelowTransitive(a: Rank, b: Rank, c: Rank)
    ensures Below(a, b) && Below(b, c) ==> Below(a, c)
    ensures Below(a, b) && b == c ==> Below(a, c)
    ensures a == b && Below(b, c) ==> Below(a, c)
  {
  }

  lemma PathDistinct(setup: Setup, cursor: JobCursor)
    ensures Distinct(Path(setup, cursor))
  {
    var path := Path(setup, cursor);
    forall i, j | 0 <= i < j < |path| ensures path[i] != path[j] {
      PathBelow(setup, cursor, i);
      assert path[i..][j - i] == path[j];
      PathBelow(setup, path[i], j - i);
    }
  }

  // In every reachable state the applied pages are an initial part of the
  // sequential pass, without repetition, and map and counts are theirs.
  lemma PagesInOrderOnce(setup: Setup, actions: seq<Action>)
    requires HonestRun(setup, actions)
    ensures var s := Run(setup, actions);
      && s.history <= Path(setup, FIRST) && Distinct(s.history)
      && (s.maps, s.job.counts) == Pass(setup, s.history)
  {
    InvRun(setup, actions);
    PathDistinct(setup, FIRST);
  }

  // Only a commit changes map, counts or cursor, and what it applies is the
  // page that a fetch at the job's own cursor returns.
  lemma AppliesPageAtCursor(setup: Setup, actions: seq<Action>, a: Action)
    requires HonestRun(setup, actions) && Honest(Run(setup, actions), a)
    ensures var s, t := Run(setup, actions), Step(setup, Run(setup, actions), a);
      if a.Commit? && Commits(setup, s, a.worker) then
        var page := FetchJobPage(setup.remote, setup.scope, s.job.cursor);
        && t.history == s.history + [s.job.cursor]
        && t.maps == Apply(s.maps, page.entities, setup.dryRun, setup.writer).0
        && t.job.counts == Plus(s.job.counts, Apply(s.maps, page.entities, setup.dryRun, setup.writer).1)
        && t.job.version == s.job.version + 1
      else SamePages(s, t)
  {
    hide Path, Pass, Apply, FetchJobPage, InOrder, Awake, KeysOk, Run, Rejection, Step;
    InvRun(setup, actions);
    var s := Run(setup, actions);
    OtherPages(setup, s, a);
    if a.Commit? && Commits(setup, s, a.worker) {
      assert SnapshotOk(setup, s, s.workers[a.worker].phase);
      CommitEffect(setup, s, a.worker);
    }
  }

  lemma CommitEffect(setup: Setup, s: State, w: nat)
    requires Commits(setup, s, w)
    ensures var t, page := Step(setup, s, Commit(w)), s.workers[w].phase.page;
      && t.history == s.history + [s.job.cursor]
      && t.maps == Apply(s.maps, page.entities, setup.dryRun, setup.writer).0
      && t.job.counts == Plus(s.job.counts, Apply(s.maps, page.entities, setup.dryRun, setup.writer).1)
      && t.job.version == s.job.version + 1
  {
    hide Apply, Rejection, Plus;
  }

  // ----- a finished import equals one uninterrupted pass -----

  lemma PlusAssociates(a: Counters, b: Counters, c: Counters)
    ensures Plus(a, Plus(b, c)) == Plus(Plus(a, b), c) && Plus(ZERO, a) == a == Plus(a, ZERO)
  {
  }

  lemma {:induction false} ApplyAppend(maps: Maps, left: seq<Entity>, right: seq<Entity>, dry: bool, writer: Writer)
    ensures var first := Apply(maps, left, dry, writer);
      var second := Apply(first.0, right, dry, writer);
      Apply(maps, left + right, dry, writer) == (second.0, Plus(first.1, second.1))
  {
    var first := Apply(maps, left, dry, writer);
    if right == [] {
      assert left + right == left;
      PlusAssociates(first.1, ZERO, ZERO);
    } else {
      var front, last := right[..|right| - 1], right[|right| - 1];
      assert (left + right)[..|left + right| - 1] == left + front;
      ApplyAppend(maps, left, front, dry, writer);
      ApplySnoc(maps, left + right, dry, writer);
      ApplySnoc(first.0, right, dry, writer);
      hide Apply, ApplyOne, Plus;
      var middle := Apply(first.0, front, dry, writer);
      PlusAssociates(first.1, middle.1, ApplyOne(middle.0, last, dry, writer).1);
    }
  }

  lemma {:induction false} PassFollows(setup: Setup, done: seq<JobCursor>, cursor: JobCursor)
    ensures var (maps, counts) := Pass(setup, done);
      var (after, counters) := Apply(maps, Follow(setup.remote, setup.scope, cursor), setup.dryRun, setup.writer);
      Pass(setup, done + Path(setup, cursor)) == (after, Plus(counts, counters))
    decreases CursorRank(setup.remote, setup.scope, cursor).entities, CursorRank(setup.remote, setup.scope, cursor).partitions,
              CursorRank(setup.remote, setup.scope, cursor).pages, CursorRank(setup.remote, setup.scope, cursor).offsets
  {
    hide Apply, FetchJobPage, CursorRank;
    var page := FetchJobPage(setup.remote, setup.scope, cursor);
    assert (done + [cursor])[..|done + [cursor]| - 1] == done;
    if page.next.Some? {
      StepDecreases(setup.remote, setup.scope, cursor);
      PassDecreases(setup, done + [cursor], cursor, page.next.value);
      ApplyAppend(Pass(setup, done).0, page.entities, Follow(setup.remote, setup.scope, page.next.value), setup.dryRun, setup.writer);
      assert done + ([cursor] + Path(setup, page.next.value)) == (done + [cursor]) + Path(setup, page.next.value);
    }
  }

  lemma {:induction false} PassDecreases(setup: Setup, done: seq<JobCursor>, before: JobCursor, cursor: JobCursor)
    requires Below(CursorRank(setup.remote, setup.scope, cursor), CursorRank(setup.remote, setup.scope, before))
    ensures var (maps, counts) := Pass(setup, done);
      var (after, counters) := Apply(maps, Follow(setup.remote, setup.scope, cursor), setup.dryRun, setup.writer);
      Pass(setup, done + Path(setup, cursor)) == (after, Plus(counts, counters))
    decreases CursorRank(setup.remote, setup.scope, before).entities, CursorRank(setup.remote, setup.scope, before).partitions,
              CursorRank(setup.remote, setup.scope, before).pages, CursorRank(setup.remote, setup.scope, before).offsets, 0
  {
    PassFollows(setup, done, cursor);
  }

  // Whatever workers, administrators and failures did on the way: a succeeded
  // import leaves the map and the counts of applying every kept row of the
  // account once, in order.
  lemma SucceededIsSequentialPass(setup: Setup, actions: seq<Action>)
    requires HonestRun(setup, actions) && Run(setup, actions).job.status == Succeeded
    ensures var s := Run(setup, actions);
      && s.history == Path(setup, FIRST)
      && (s.maps, s.job.counts) == Apply(setup.known, Everything(setup.remote, setup.scope), setup.dryRun, setup.writer)
  {
    InvRun(setup, actions);
    WholePass(setup);
    hide Path, Pass, Apply, FetchJobPage, Run, Everything;
  }

  lemma WholePass(setup: Setup)
    ensures Pass(setup, Path(setup, FIRST)) == Apply(setup.known, Everything(setup.remote, setup.scope), setup.dryRun, setup.writer)
  {
    hide Path, Apply, FetchJobPage, Follow, Plus;
    PassFollows(setup, [], FIRST);
    assert [] + Path(setup, FIRST) == Path(setup, FIRST);
    hide Pass;
    FollowIsEverything(setup.remote, setup.scope);
    var all := Apply(setup.known, Follow(setup.remote, setup.scope, FIRST), setup.dryRun, setup.writer);
    NothingApplied(setup);
    PlusAssociates(all.1, ZERO, ZERO);
  }

  lemma NothingApplied(setup: Setup)
    ensures Pass(setup, []) == (setup.known, ZERO)
  {
  }

  // ----- dedupe keys, and what "succeeded" means -----

  // With a writer that updates rows in place, an entity that was mapped before
  // the import stays on its row, in every reachable state.
  lemma MappedRowsStay(setup: Setup, actions: seq<Action>)
    requires HonestRun(setup, actions) && UpdatesInPlace(setup.writer)
    ensures var s := Run(setup, actions);
      forall k :: k in setup.known ==> k in s.maps && s.maps[k].internal == setup.known[k].internal
  {
    hide Run, Pass, Path, FetchJobPage, KeysOk, SnapshotsOk, RequestsOk, OneCurrent, Awake;
    InvRun(setup, actions);
    PassKeepsRows(setup, Run(setup, actions).history);
  }

  lemma {:induction false} PassKeepsRows(setup: Setup, cursors: seq<JobCursor>)
    requires UpdatesInPlace(setup.writer)
    ensures var maps := Pass(setup, cursors).0;
      forall k :: k in setup.known ==> k in maps && maps[k].internal == setup.known[k].internal
  {
    hide Apply, FetchJobPage, UpdatesInPlace;
    if cursors != [] {
      var front, last := cursors[..|cursors| - 1], cursors[|cursors| - 1];
      PassKeepsRows(setup, front);
      RowsStay(Pass(setup, front).0, FetchJobPage(setup.remote, setup.scope, last).entities, setup.dryRun, setup.writer);
    }
  }

  // Every entry a step queues has a dedupe key that was never used before.
  lemma NewKeysAreFresh(setup: Setup, actions: seq<Action>, a: Action)
    requires HonestRun(setup, actions) && Honest(Run(setup, actions), a)
    ensures var s, t := Run(setup, actions), Step(setup, Run(setup, actions), a);
      && s.entries.Keys <= t.entries.Keys
      && (a.Commit? && Commits(setup, s, a.worker) ==>
            var key := if s.workers[a.worker].phase.page.next.None? then ReportKey else PageKey(s.job.version + 1);
            key !in s.entries && t.entries == s.entries[key := Entry(Queued, 0)])
      && (a.Execute? && a.request in s.requests && s.requests[a.request].resume && s.requests[a.request].expected == s.job.version ==>
            var key := ResumeKey(s.job.version + 1);
            key !in s.entries && t.entries == s.entries[key := Entry(Queued, 0)])
  {
    hide InOrder, Awake, OneCurrent, SnapshotsOk, Run, Commits, CommitStep, ExecuteStep;
    InvRun(setup, actions);
    var s := Run(setup, actions);
    match a
    case Commit(w) => CommitQueuesFresh(setup, s, w);
    case Execute(r) => ExecuteQueuesFresh(s, r);
    case _ => EntriesStay(setup, s, a);
  }

  lemma CommitQueuesFresh(setup: Setup, s: State, w: nat)
    requires KeysOk(s)
    ensures var t := CommitStep(setup, s, w);
      && s.entries.Keys <= t.entries.Keys
      && (Commits(setup, s, w) ==>
            var key := if s.workers[w].phase.page.next.None? then ReportKey else PageKey(s.job.version + 1);
            key !in s.entries && t.entries == s.entries[key := Entry(Queued, 0)])
  {
    hide Apply, Rejection, Plus;
  }

  lemma ExecuteQueuesFresh(s: State, r: nat)
    requires KeysOk(s)
    ensures var t := ExecuteStep(s, r);
      && s.entries.Keys <= t.entries.Keys
      && (r in s.requests && s.requests[r].resume && s.requests[r].expected == s.job.version ==>
            var key := ResumeKey(s.job.version + 1);
            key !in s.entries && t.entries == s.entries[key := Entry(Queued, 0)])
  {
  }

  lemma EntriesStay(setup: Setup, s: State, a: Action)
    requires !a.Commit? && !a.Execute?
    ensures s.entries.Keys <= Step(setup, s, a).entries.Keys
  {
    hide FetchJobPage, CommitStep, ExecuteStep;
  }

  // In any state: a job leaves "succeeded" exactly when a compare-and-set goes
  // through whose request names the job's own version.
  lemma LeavesSucceededIff(setup: Setup, s: State, a: Action)
    requires s.job.status == Succeeded
    ensures Step(setup, s, a).job.status != Succeeded
       <==> a.Execute? && a.request in s.requests && s.requests[a.request].expected == s.job.version
  {
    hide Path, Pass, Apply, FetchJobPage, Rejection;
  }

  // Such a request does not exist when clients send versions they have read. So
  // a succeeded job then never changes again, apart from its report.
  lemma SucceededIsAbsorbing(setup: Setup, actions: seq<Action>, a: Action)
    requires HonestRun(setup, actions) && Honest(Run(setup, actions), a)
    requires Run(setup, actions).job.status == Succeeded
    ensures var s, t := Run(setup, actions), Step(setup, Run(setup, actions), a);
      && t.job.status == Succeeded && t.job.counts == s.job.counts && t.maps == s.maps && t.history == s.history
      && (s.job.reported ==> t.job == s.job)
  {
    hide Path, Pass, Apply, FetchJobPage, InOrder, Awake, SnapshotsOk, Run, KeysOk, OneCurrent, Step;
    InvRun(setup, actions);
    var s := Run(setup, actions);
    LeavesSucceededIff(setup, s, a);
    OtherPages(setup, s, a);
    OnlyReported(setup, s, a);
  }

  lemma OnlyReported(setup: Setup, s: State, a: Action)
    requires s.job.status == Succeeded && Step(setup, s, a).job.status == Succeeded
    ensures s.job.reported ==> Step(setup, s, a).job == s.job
  {
    hide Path, Pass, Apply, FetchJobPage, Rejection;
  }

  // ----- runs that show the limits -----

  // ----- requests and oversized pages -----

  // A resume is queued for a paused or failed job, a pause for a pending or
  // running one, with the version that was read; nothing else changes.
  lemma AskQueues(s: State, resume: bool, expected: nat)
    ensures var t := AskStep(s, resume, expected);
      if (if resume then s.job.status == Paused || s.job.status == Failed else s.job.status == Pending || s.job.status == Running)
      then t == s.(requests := s.requests[s.nextRequest := Request(resume, expected)], nextRequest := s.nextRequest + 1)
      else t == s
  {
  }

  // A page of at most 250 entities is taken on; one with more fails the job for
  // good, without a retry, if the job still runs when the worker settles.
  lemma OversizedPageFails(setup: Setup, s: State, w: nat)
    requires w in s.workers && s.workers[w].phase.Fetching?
    ensures var phase := s.workers[w].phase;
      var page, fetched := FetchJobPage(setup.remote, setup.scope, phase.cursor), FetchStep(setup, s, w);
      var t := SettleStep(fetched, w);
      && (|page.entities| <= 250 ==> fetched == s.(workers := s.workers[w := s.workers[w].(phase := Fetched(phase.version, phase.cursor, page))]))
      && (|page.entities| > 250 ==>
            && t.maps == s.maps && t.job.counts == s.job.counts && t.workers[w].phase == Returned
            && t.job.status == if s.job.status == Pending || s.job.status == Running then Failed else s.job.status)
  {
    hide FetchJobPage;
  }

  lemma RunSnoc(setup: Setup, actions: seq<Action>, a: Action)
    ensures Run(setup, actions + [a]) == Step(setup, Run(setup, actions), a)
    ensures HonestRun(setup, actions + [a]) <==> HonestRun(setup, actions) && Honest(Run(setup, actions), a)
  {
    assert (actions + [a])[..|actions + [a]| - 1] == actions;
  }

  // The compare-and-set trusts the version a client sends: a client that names
  // a version still to come can pause an import that has already succeeded.
  lemma ForeseenVersionBreaksAbsorption() returns (setup: Setup, before: seq<Action>, a: Action)
    ensures Run(setup, before).job.status == Succeeded
    ensures Step(setup, Run(setup, before), a).job.status == Paused
    ensures !HonestRun(setup, before)
  {
    hide Run, HonestRun, ClaimStep, SnapshotStep, FetchStep, AskStep, CommitStep, ExecuteStep;
    setup := Setup(Remote(map[], [], map[]), Only(Users), false, (e: Entity, i: Option<Id>) => 0, map[]);
    var claim, look, get, ask, commit := [Claim(InitialKey)], [Snapshot(0)], [Fetch(0)], [Ask(false, 2)], [Commit(0)];
    StartsEmpty(setup);
    assert [] + claim == claim;
    RunSnoc(setup, [], Claim(InitialKey));
    RunSnoc(setup, claim, Snapshot(0));
    RunSnoc(setup, claim + look, Fetch(0));
    RunSnoc(setup, claim + look + get, Ask(false, 2));
    RunSnoc(setup, claim + look + get + ask, Commit(0));
    before, a := claim + look + get + ask + commit, Execute(0);
    var fetched := FirstFetched(setup);
    SecondVersionAsked(setup, fetched);
    CommitSucceeds(setup, AskStep(fetched, false, 2), JobPage(Users, [], None));
    PausesAfterAll(CommitStep(setup, AskStep(fetched, false, 2), 0));
  }

  lemma FirstFetched(setup: Setup) returns (s: State)
    requires setup.remote == Remote(map[], [], map[]) && setup.scope == Only(Users)
    ensures s == FetchStep(setup, SnapshotStep(ClaimStep(Start(setup), InitialKey), 0), 0)
    ensures s.job == Job(Running, 1, FIRST, ZERO, false) && s.requests == map[] && s.nextRequest == 0
    ensures s.workers == map[0 := Worker(InitialKey, 1, Fetched(1, FIRST, JobPage(Users, [], None)))]
  {
    hide FetchJobPage;
    FirstPage(setup);
    s := FetchStep(setup, SnapshotStep(ClaimStep(Start(setup), InitialKey), 0), 0);
  }

  lemma SecondVersionAsked(setup: Setup, s: State)
    requires s.job == Job(Running, 1, FIRST, ZERO, false) && s.requests == map[] && s.nextRequest == 0
    ensures AskStep(s, false, 2) == s.(requests := map[0 := Request(false, 2)], nextRequest := 1)
    ensures !Honest(s, Ask(false, 2))
  {
  }

  lemma PausesAfterAll(s: State)
    requires s.job.version == 2 && s.requests == map[0 := Request(false, 2)]
    ensures ExecuteStep(s, 0).job.status == Paused
  {
  }

  lemma FirstPage(setup: Setup)
    requires setup.remote == Remote(map[], [], map[]) && setup.scope == Only(Users)
    ensures FetchJobPage(setup.remote, setup.scope, FIRST) == JobPage(Users, [], None)
  {
  }

  lemma CommitSucceeds(setup: Setup, s: State, page: JobPage)
    requires page == JobPage(Users, [], None) && setup.scope == Only(Users)
    requires s.job == Job(Running, 1, FIRST, ZERO, false) && s.workers == map[0 := Worker(InitialKey, 1, Fetched(1, FIRST, page))]
    ensures var t := CommitStep(setup, s, 0);
      t.job.status == Succeeded && t.job.version == 2 && t.requests == s.requests
  {
    hide Apply;
  }

  lemma StartsEmpty(setup: Setup)
    ensures Run(setup, []) == Start(setup)
  {
  }
}
