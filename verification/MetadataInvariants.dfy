/** What every reachable state of the metadata queue satisfies. */
module MetadataInvariants {
  import opened Wrappers
  import opened MetadataModel

  // ---------------------------------------------------------------- the invariant

  /** For each number the attempts are 1..k without gaps or repetitions. */
  ghost predicate Attempts(jobs: map<Uuid, Job>) {
    && (forall id :: id in jobs ==> jobs[id].attemptNo >= 1)
    && (forall a, b :: a in jobs && b in jobs && SameAttempt(jobs[a], jobs[b]) ==> a == b)
    && (forall id :: id in jobs && jobs[id].attemptNo > 1 ==> HasAttempt(jobs, jobs[id].number, jobs[id].attemptNo - 1))
  }

  predicate SameAttempt(a: Job, b: Job) {
    a.number == b.number && a.attemptNo == b.attemptNo
  }

  ghost predicate HasAttempt(jobs: map<Uuid, Job>, number: string, attemptNo: int) {
    exists id :: id in jobs && jobs[id].number == number && jobs[id].attemptNo == attemptNo
  }

  /** Only the newest attempt of a number can still be active. */
  ghost predicate OldAttemptsTerminal(jobs: map<Uuid, Job>) {
    forall a, b :: a in jobs && b in jobs && Precedes(jobs[a], jobs[b]) ==> !Active(jobs[a])
  }

  predicate Precedes(a: Job, b: Job) {
    a.number == b.number && a.attemptNo < b.attemptNo
  }

  /** A parent is an earlier attempt of the same number. */
  ghost predicate Lineage(jobs: map<Uuid, Job>) {
    forall id :: id in jobs && jobs[id].parent.Some? ==>
      jobs[id].parent.value in jobs && Precedes(jobs[jobs[id].parent.value], jobs[id])
  }

  ghost predicate MoviesMatch(movies: map<Uuid, Movie>, jobs: map<Uuid, Job>) {
    && (forall id :: id in jobs ==> jobs[id].movie in movies && movies[jobs[id].movie].number == jobs[id].number)
    && (forall a, b :: a in movies && b in movies && movies[a].number == movies[b].number ==> a == b)
  }

  function StateFor(status: JobStatus): CatalogState {
    match status
    case Queued => MetadataQueued
    case Running => MetadataRunning
    case Failed => RawOnly
    case _ => CoreReady
  }

  /** The catalog state that a number's newest attempt calls for. */
  ghost function DerivedState(jobs: map<Uuid, Job>, number: string): CatalogState {
    match Latest(jobs, number) case None => RawOnly case Some(id) => StateFor(jobs[id].status)
  }

  ghost predicate CatalogFollowsJobs(movies: map<Uuid, Movie>, jobs: map<Uuid, Job>) {
    && (forall m :: m in movies ==> movies[m].state == CoreReady || movies[m].state == DerivedState(jobs, movies[m].number))
    && (forall m :: m in movies && movies[m].state == CoreReady ==> Latest(jobs, movies[m].number).Some?)
  }

  predicate NeedsCore(job: Job) {
    job.retryMode == MissingEnrichment || job.status == Completed || job.status == CompletedWithWarnings
  }

  ghost predicate CoreBehindJobs(movies: map<Uuid, Movie>, jobs: map<Uuid, Job>) {
    forall id :: id in jobs && NeedsCore(jobs[id]) ==>
      jobs[id].movie in movies && movies[jobs[id].movie].state == CoreReady
  }

  predicate Planned(job: Job, stage: Stage) {
    job.retryMode == Full || stage in job.requested
  }

  ghost predicate RowShape(job: Job) {
    && job.priority == PriorityFor(job.reason)
    && (forall s :: s in ALL_STAGES <==> s in job.stages)
    && (forall s :: s in job.stages ==> (job.stages[s] == StageSkipped <==> !Planned(job, s)))
    && (job.status == Running <==> job.claim.Some?)
    && (job.status == Queued ==> job.startedAt == None && forall s :: s in job.stages ==> job.stages[s] != StageRunning)
    && (Active(job) <==> job.finishedAt == None)
    && (job.status == Failed <==> job.failureCode.Some?)
    && (job.status == Completed || job.status == CompletedWithWarnings ==> !AnyOpen(job.stages))
    && (job.status == Completed ==> !AnyWarned(job.stages))
    && (job.status == CompletedWithWarnings ==> AnyWarned(job.stages))
    && (job.retryMode == Full <==> job.requested == [])
    && JavdbCore !in job.requested
  }

  ghost predicate Rows(jobs: map<Uuid, Job>) {
    forall id :: id in jobs ==> RowShape(jobs[id])
  }

  /** Claim owners were drawn once each. */
  ghost predicate Owners(jobs: map<Uuid, Job>, issued: set<Uuid>) {
    && (forall id :: id in jobs && jobs[id].claim.Some? ==> jobs[id].claim.value.owner in issued)
    && (forall a, b :: a in jobs && b in jobs && SameOwner(jobs[a], jobs[b]) ==> a == b)
  }

  predicate SameOwner(a: Job, b: Job) {
    a.claim.Some? && b.claim.Some? && a.claim.value.owner == b.claim.value.owner
  }

  ghost predicate Slots(jobs: map<Uuid, Job>, now: int) {
    |Live(jobs, now)| <= MAX_RUNNING_JOBS
  }

  ghost predicate AttemptHistory(jobs: map<Uuid, Job>) {
    Attempts(jobs) && OldAttemptsTerminal(jobs) && Lineage(jobs)
  }

  ghost predicate Inv(db: Db) {
    && AttemptHistory(db.jobs) && MoviesMatch(db.movies, db.jobs) && CatalogFollowsJobs(db.movies, db.jobs)
    && CoreBehindJobs(db.movies, db.jobs) && Rows(db.jobs) && Owners(db.jobs, db.issued) && Slots(db.jobs, db.now)
  }

  // ---------------------------------------------------------------- newest attempts

  lemma LatestIs(jobs: map<Uuid, Job>, number: string, id: Uuid)
    requires Attempts(jobs) && IsLatest(jobs, number, id)
    ensures Latest(jobs, number) == Some(id)
  {
    var other :| IsLatest(jobs, number, other);
    assert forall o :: IsLatest(jobs, number, o) ==> SameAttempt(jobs[o], jobs[id]);
  }

  /** A number with jobs has a newest one. */
  lemma LatestExists(jobs: map<Uuid, Job>, number: string, id: Uuid)
    requires id in jobs && jobs[id].number == number
    ensures Latest(jobs, number).Some?
  {
    var ids := set k | k in jobs && jobs[k].number == number;
    assert id in ids;
    var top := Newest(jobs, ids);
    assert IsLatest(jobs, number, top);
  }

  lemma {:induction false} Newest(jobs: map<Uuid, Job>, ids: set<Uuid>) returns (top: Uuid)
    requires ids != {} && ids <= jobs.Keys
    ensures top in ids && forall k :: k in ids ==> jobs[k].attemptNo <= jobs[top].attemptNo
  {
    var id :| id in ids;
    if ids == {id} {
      top := id;
    } else {
      var rest := Newest(jobs, ids - {id});
      top := if jobs[id].attemptNo > jobs[rest].attemptNo then id else rest;
    }
  }

  lemma LatestMeaning(jobs: map<Uuid, Job>, number: string)
    ensures Latest(jobs, number).Some? ==> IsLatest(jobs, number, Latest(jobs, number).value)
    ensures Latest(jobs, number) == None ==> forall id :: id in jobs ==> jobs[id].number != number
  {
    if Latest(jobs, number) == None {
      forall id | id in jobs ensures jobs[id].number != number {
        if jobs[id].number == number {
          LatestExists(jobs, number, id);
        }
      }
    }
  }

  lemma ActiveIsLatest(jobs: map<Uuid, Job>, id: Uuid)
    requires Attempts(jobs) && OldAttemptsTerminal(jobs) && id in jobs && Active(jobs[id])
    ensures Latest(jobs, jobs[id].number) == Some(id)
  {
    forall k | k in jobs && jobs[k].number == jobs[id].number ensures jobs[k].attemptNo <= jobs[id].attemptNo {
      assert !Precedes(jobs[id], jobs[k]);
    }
    LatestIs(jobs, jobs[id].number, id);
  }

  /** Two active jobs of one number are the same job. */
  lemma AtMostOneActive(db: Db, a: Uuid, b: Uuid)
    requires Inv(db) && a in db.jobs && b in db.jobs
    requires Active(db.jobs[a]) && Active(db.jobs[b]) && db.jobs[a].number == db.jobs[b].number
    ensures a == b
  {
    ActiveIsLatest(db.jobs, a);
    ActiveIsLatest(db.jobs, b);
  }

  // ------------------------------------------------- changing the row of an active job

  predicate SameIdentity(a: Job, b: Job) {
    && a.movie == b.movie && a.number == b.number && a.attemptNo == b.attemptNo && a.parent == b.parent
    && a.retryMode == b.retryMode && a.requested == b.requested && a.createdAt == b.createdAt
  }

  lemma UpdateKeepsAttempt(jobs: map<Uuid, Job>, id: Uuid, job: Job, number: string, attemptNo: int)
    requires id in jobs && SameIdentity(jobs[id], job) && HasAttempt(jobs, number, attemptNo)
    ensures HasAttempt(jobs[id := job], number, attemptNo)
  {
    var p :| p in jobs && jobs[p].number == number && jobs[p].attemptNo == attemptNo;
    assert p in jobs[id := job];
  }

  lemma UpdateKeepsAttempts(jobs: map<Uuid, Job>, id: Uuid, job: Job)
    requires Attempts(jobs) && id in jobs && SameIdentity(jobs[id], job)
    ensures Attempts(jobs[id := job])
  {
    hide HasAttempt;
    var jobs' := jobs[id := job];
    forall k | k in jobs' && jobs'[k].attemptNo > 1 ensures HasAttempt(jobs', jobs'[k].number, jobs'[k].attemptNo - 1) {
      assert jobs'[k].number == jobs[k].number && jobs'[k].attemptNo == jobs[k].attemptNo;
      UpdateKeepsAttempt(jobs, id, job, jobs[k].number, jobs[k].attemptNo - 1);
    }
    forall a, b | a in jobs' && b in jobs' && SameAttempt(jobs'[a], jobs'[b]) ensures a == b {
      assert SameAttempt(jobs[a], jobs[b]);
    }
  }

  lemma UpdateKeepsOldTerminal(jobs: map<Uuid, Job>, id: Uuid, job: Job)
    requires OldAttemptsTerminal(jobs) && id in jobs && SameIdentity(jobs[id], job) && Active(jobs[id])
    ensures OldAttemptsTerminal(jobs[id := job])
  {
    var jobs' := jobs[id := job];
    forall a, b | a in jobs' && b in jobs' && Precedes(jobs'[a], jobs'[b]) ensures !Active(jobs'[a]) {
      assert Precedes(jobs[a], jobs[b]);
    }
  }

  lemma UpdateKeepsLineage(jobs: map<Uuid, Job>, id: Uuid, job: Job)
    requires Lineage(jobs) && id in jobs && SameIdentity(jobs[id], job)
    ensures Lineage(jobs[id := job])
  {
  }

  lemma UpdateKeepsHistory(jobs: map<Uuid, Job>, id: Uuid, job: Job)
    requires AttemptHistory(jobs) && id in jobs && SameIdentity(jobs[id], job) && Active(jobs[id])
    ensures AttemptHistory(jobs[id := job])
  {
    UpdateKeepsAttempts(jobs, id, job);
    UpdateKeepsOldTerminal(jobs, id, job);
    UpdateKeepsLineage(jobs, id, job);
  }

  lemma UpdateKeepsLatest(jobs: map<Uuid, Job>, id: Uuid, job: Job, number: string)
    requires Attempts(jobs) && id in jobs && SameIdentity(jobs[id], job)
    ensures Latest(jobs[id := job], number) == Latest(jobs, number)
  {
    var jobs' := jobs[id := job];
    assert forall k :: k in jobs ==> jobs'[k].number == jobs[k].number && jobs'[k].attemptNo == jobs[k].attemptNo;
    forall k ensures IsLatest(jobs', number, k) <==> IsLatest(jobs, number, k) {
    }
    assert forall a, b :: IsLatest(jobs, number, a) && IsLatest(jobs, number, b) ==> SameAttempt(jobs[a], jobs[b]);
  }

  /** Rewriting an active job's row, together with its movie's state. */
  ghost predicate GoodUpdate(db: Db, id: Uuid, job: Job, state: CatalogState) {
    && id in db.jobs && Active(db.jobs[id]) && SameIdentity(db.jobs[id], job) && RowShape(job)
    && job.movie in db.movies
    && (db.movies[job.movie].state == CoreReady ==> state == CoreReady)
    && (state == CoreReady || state == StateFor(job.status))
    && (NeedsCore(job) ==> state == CoreReady)
  }

  function Rewritten(db: Db, id: Uuid, job: Job, state: CatalogState): Db
    requires job.movie in db.movies
  {
    db.(jobs := db.jobs[id := job], movies := db.movies[job.movie := db.movies[job.movie].(state := state)])
  }

  lemma UpdateKeepsMovies(db: Db, id: Uuid, job: Job, state: CatalogState)
    requires MoviesMatch(db.movies, db.jobs) && Rows(db.jobs) && GoodUpdate(db, id, job, state)
    ensures MoviesMatch(Rewritten(db, id, job, state).movies, Rewritten(db, id, job, state).jobs) && Rows(Rewritten(db, id, job, state).jobs)
  {
  }

  lemma UpdateKeepsCatalog(db: Db, id: Uuid, job: Job, state: CatalogState)
    requires AttemptHistory(db.jobs) && MoviesMatch(db.movies, db.jobs) && CatalogFollowsJobs(db.movies, db.jobs)
    requires GoodUpdate(db, id, job, state)
    ensures CatalogFollowsJobs(Rewritten(db, id, job, state).movies, Rewritten(db, id, job, state).jobs)
  {
    var db' := Rewritten(db, id, job, state);
    ActiveIsLatest(db.jobs, id);
    forall m | m in db'.movies
      ensures db'.movies[m].state == CoreReady ==> Latest(db'.jobs, db'.movies[m].number).Some?
      ensures db'.movies[m].state == CoreReady || db'.movies[m].state == DerivedState(db'.jobs, db'.movies[m].number)
    {
      UpdateKeepsLatest(db.jobs, id, job, db.movies[m].number);
      LatestMeaning(db.jobs, db.movies[m].number);
    }
  }

  lemma UpdateKeepsCore(db: Db, id: Uuid, job: Job, state: CatalogState)
    requires CoreBehindJobs(db.movies, db.jobs) && GoodUpdate(db, id, job, state)
    ensures CoreBehindJobs(Rewritten(db, id, job, state).movies, Rewritten(db, id, job, state).jobs)
  {
  }

  lemma UpdateKeepsInv(db: Db, id: Uuid, job: Job, state: CatalogState)
    requires Inv(db) && GoodUpdate(db, id, job, state)
    ensures var db' := Rewritten(db, id, job, state);
            && AttemptHistory(db'.jobs) && MoviesMatch(db'.movies, db'.jobs) && CatalogFollowsJobs(db'.movies, db'.jobs)
            && CoreBehindJobs(db'.movies, db'.jobs) && Rows(db'.jobs)
  {
    UpdateKeepsHistory(db.jobs, id, job);
    UpdateKeepsMovies(db, id, job, state);
    UpdateKeepsCatalog(db, id, job, state);
    UpdateKeepsCore(db, id, job, state);
  }

  /** Claims that only shrink keep their owners distinct and their number within the slots. */
  lemma ClaimsKeptOrDropped(db: Db, db': Db, id: Uuid)
    requires Owners(db.jobs, db.issued) && Slots(db.jobs, db.now) && id in db.jobs
    requires id in db'.jobs && db'.jobs == db.jobs[id := db'.jobs[id]] && db'.issued == db.issued && db'.now == db.now
    requires db'.jobs[id].claim.Some? ==> SameOwner(db.jobs[id], db'.jobs[id])
    requires id in Live(db'.jobs, db'.now) ==> id in Live(db.jobs, db.now)
    ensures Owners(db'.jobs, db'.issued) && Slots(db'.jobs, db'.now)
  {
    assert Live(db'.jobs, db'.now) <= Live(db.jobs, db.now);
    SubsetSize(Live(db'.jobs, db'.now), Live(db.jobs, db.now));
    forall a, b | a in db'.jobs && b in db'.jobs && SameOwner(db'.jobs[a], db'.jobs[b]) ensures a == b {
      assert SameOwner(db.jobs[a], db.jobs[b]);
    }
  }

  // ---------------------------------------------------------------- adding a job

  /** A new attempt may be added when its number has no active job and it is numbered next. */
  ghost predicate GoodAddition(db: Db, id: Uuid, job: Job) {
    && id !in db.jobs && RowShape(job) && job.status == Queued
    && job.movie in db.movies && db.movies[job.movie].number == job.number
    && NoActive(db.jobs, job.number)
    && job.attemptNo == NextAttempt(db.jobs, job.number)
    && (job.parent.Some? ==> job.parent.value in db.jobs && db.jobs[job.parent.value].number == job.number)
    && (job.retryMode == MissingEnrichment ==> db.movies[job.movie].state == CoreReady)
  }

  lemma AdditionIsNewest(jobs: map<Uuid, Job>, job: Job)
    requires Attempts(jobs) && job.attemptNo == NextAttempt(jobs, job.number)
    ensures job.attemptNo >= 1
    ensures forall k :: k in jobs && jobs[k].number == job.number ==> jobs[k].attemptNo < job.attemptNo
    ensures job.attemptNo > 1 ==> HasAttempt(jobs, job.number, job.attemptNo - 1)
  {
    LatestMeaning(jobs, job.number);
    match Latest(jobs, job.number)
    case None =>
    case Some(top) => assert jobs[top].number == job.number && jobs[top].attemptNo == job.attemptNo - 1;
  }

  lemma AdditionKeepsPredecessors(jobs: map<Uuid, Job>, id: Uuid, job: Job)
    requires Attempts(jobs) && id !in jobs && job.attemptNo == NextAttempt(jobs, job.number)
    ensures var jobs' := jobs[id := job];
            forall k :: k in jobs' && jobs'[k].attemptNo > 1 ==> HasAttempt(jobs', jobs'[k].number, jobs'[k].attemptNo - 1)
  {
    var jobs' := jobs[id := job];
    AdditionIsNewest(jobs, job);
    forall k | k in jobs' && jobs'[k].attemptNo > 1 ensures HasAttempt(jobs', jobs'[k].number, jobs'[k].attemptNo - 1) {
      var n, a := jobs'[k].number, jobs'[k].attemptNo - 1;
      assert HasAttempt(jobs, n, a);
      var p :| p in jobs && jobs[p].number == n && jobs[p].attemptNo == a;
      assert jobs'[p] == jobs[p];
    }
  }

  lemma AdditionKeepsAttempts(jobs: map<Uuid, Job>, id: Uuid, job: Job)
    requires Attempts(jobs) && id !in jobs && job.attemptNo == NextAttempt(jobs, job.number)
    ensures Attempts(jobs[id := job])
  {
    var jobs' := jobs[id := job];
    AdditionIsNewest(jobs, job);
    AdditionKeepsPredecessors(jobs, id, job);
    forall a, b | a in jobs' && b in jobs' && SameAttempt(jobs'[a], jobs'[b]) ensures a == b {
      assert a != id && b != id ==> SameAttempt(jobs[a], jobs[b]);
    }
  }

  lemma AdditionKeepsOldTerminal(jobs: map<Uuid, Job>, id: Uuid, job: Job)
    requires Attempts(jobs) && OldAttemptsTerminal(jobs) && id !in jobs
    requires NoActive(jobs, job.number) && job.attemptNo == NextAttempt(jobs, job.number)
    ensures OldAttemptsTerminal(jobs[id := job])
  {
    var jobs' := jobs[id := job];
    AdditionIsNewest(jobs, job);
    forall a, b | a in jobs' && b in jobs' && Precedes(jobs'[a], jobs'[b]) ensures !Active(jobs'[a]) {
      assert a != id && b != id ==> Precedes(jobs[a], jobs[b]);
    }
  }

  lemma AdditionKeepsLineage(jobs: map<Uuid, Job>, id: Uuid, job: Job)
    requires Attempts(jobs) && Lineage(jobs) && id !in jobs && job.attemptNo == NextAttempt(jobs, job.number)
    requires job.parent.Some? ==> job.parent.value in jobs && jobs[job.parent.value].number == job.number
    ensures Lineage(jobs[id := job])
  {
    AdditionIsNewest(jobs, job);
  }

  lemma AdditionKeepsHistory(db: Db, id: Uuid, job: Job)
    requires AttemptHistory(db.jobs) && GoodAddition(db, id, job)
    ensures AttemptHistory(db.jobs[id := job])
  {
    AdditionKeepsAttempts(db.jobs, id, job);
    AdditionKeepsOldTerminal(db.jobs, id, job);
    AdditionKeepsLineage(db.jobs, id, job);
  }

  lemma AdditionMovesLatest(db: Db, id: Uuid, job: Job, number: string)
    requires AttemptHistory(db.jobs) && GoodAddition(db, id, job)
    ensures Latest(db.jobs[id := job], number) == if number == job.number then Some(id) else Latest(db.jobs, number)
  {
    var jobs, jobs' := db.jobs, db.jobs[id := job];
    AdditionIsNewest(jobs, job);
    AdditionKeepsAttempts(jobs, id, job);
    if number == job.number {
      LatestIs(jobs', number, id);
    } else {
      LatestMeaning(jobs, number);
      LatestMeaning(jobs', number);
      match Latest(jobs, number)
      case Some(top) =>
        assert IsLatest(jobs', number, top);
        LatestIs(jobs', number, top);
      case None =>
    }
  }

  lemma AdditionKeepsCatalog(db: Db, id: Uuid, job: Job)
    requires AttemptHistory(db.jobs) && MoviesMatch(db.movies, db.jobs) && CatalogFollowsJobs(db.movies, db.jobs)
    requires GoodAddition(db, id, job)
    ensures CatalogFollowsJobs(AddJob(db, id, job).movies, AddJob(db, id, job).jobs)
  {
    var db' := AddJob(db, id, job);
    forall m | m in db'.movies
      ensures db'.movies[m].state == CoreReady ==> Latest(db'.jobs, db'.movies[m].number).Some?
      ensures db'.movies[m].state == CoreReady || db'.movies[m].state == DerivedState(db'.jobs, db'.movies[m].number)
    {
      AdditionMovesLatest(db, id, job, db.movies[m].number);
      LatestMeaning(db.jobs, db.movies[m].number);
    }
  }

  lemma AdditionKeepsInv(db: Db, id: Uuid, job: Job)
    requires Inv(db) && GoodAddition(db, id, job)
    ensures Inv(AddJob(db, id, job))
  {
    var db' := AddJob(db, id, job);
    AdditionKeepsHistory(db, id, job);
    AdditionKeepsCatalog(db, id, job);
    AdditionKeepsRest(db, id, job);
  }

  lemma AdditionKeepsRest(db: Db, id: Uuid, job: Job)
    requires MoviesMatch(db.movies, db.jobs) && CoreBehindJobs(db.movies, db.jobs) && Rows(db.jobs)
    requires Owners(db.jobs, db.issued) && Slots(db.jobs, db.now) && GoodAddition(db, id, job)
    ensures var db' := AddJob(db, id, job);
            && MoviesMatch(db'.movies, db'.jobs) && CoreBehindJobs(db'.movies, db'.jobs) && Rows(db'.jobs)
            && Owners(db'.jobs, db'.issued) && Slots(db'.jobs, db'.now)
  {
    AdditionKeepsMovies(db, id, job);
    AdditionKeepsCore(db, id, job);
    AdditionKeepsClaims(db, id, job);
  }

  lemma AdditionKeepsMovies(db: Db, id: Uuid, job: Job)
    requires MoviesMatch(db.movies, db.jobs) && Rows(db.jobs) && GoodAddition(db, id, job)
    ensures MoviesMatch(AddJob(db, id, job).movies, AddJob(db, id, job).jobs) && Rows(AddJob(db, id, job).jobs)
  {
    hide RowShape;
  }

  lemma AdditionKeepsCore(db: Db, id: Uuid, job: Job)
    requires CoreBehindJobs(db.movies, db.jobs) && GoodAddition(db, id, job)
    ensures CoreBehindJobs(AddJob(db, id, job).movies, AddJob(db, id, job).jobs)
  {
    hide RowShape;
  }

  lemma AdditionKeepsClaims(db: Db, id: Uuid, job: Job)
    requires Owners(db.jobs, db.issued) && Slots(db.jobs, db.now) && id !in db.jobs && job.claim == None && job.movie in db.movies
    ensures Owners(AddJob(db, id, job).jobs, AddJob(db, id, job).issued) && Slots(AddJob(db, id, job).jobs, AddJob(db, id, job).now)
  {
    var db' := AddJob(db, id, job);
    assert Live(db'.jobs, db'.now) == Live(db.jobs, db.now);
    forall a, b | a in db'.jobs && b in db'.jobs && SameOwner(db'.jobs[a], db'.jobs[b]) ensures a == b {
      assert SameOwner(db.jobs[a], db.jobs[b]);
    }
  }

  lemma NewJobShape(now: int, movie: Uuid, number: string, reason: Reason, sortDate: Option<int>,
                    mode: RetryMode, requested: seq<Stage>, attemptNo: nat, parent: Option<Uuid>)
    requires (mode == Full <==> requested == []) && JavdbCore !in requested
    ensures RowShape(NewJob(now, movie, number, reason, sortDate, mode, requested, attemptNo, parent))
  {
  }
}
