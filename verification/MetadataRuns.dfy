/** Every transaction keeps the queue's invariant, and what whole runs guarantee. */
module MetadataRuns {
  import opened Wrappers
  import opened MetadataModel
  import opened MetadataInvariants

  // ---------------------------------------------------------------- enqueueing keeps the invariant

  lemma RowFacts(db: Db, id: Uuid)
    requires Inv(db) && id in db.jobs
    ensures RowShape(db.jobs[id])
    ensures db.jobs[id].movie in db.movies && db.movies[db.jobs[id].movie].number == db.jobs[id].number
    ensures NeedsCore(db.jobs[id]) ==> db.movies[db.jobs[id].movie].state == CoreReady
  {
  }

  lemma NoJobsYet(db: Db, number: string)
    requires Latest(db.jobs, number) == None
    ensures NoActive(db.jobs, number) && NextAttempt(db.jobs, number) == 1
  {
    LatestMeaning(db.jobs, number);
  }

  lemma FirstJobKeepsInv(db: Db, movie: Uuid, number: string, reason: Reason, sortDate: Option<int>, id: Uuid)
    requires Inv(db) && id !in db.jobs
    requires movie in db.movies && db.movies[movie].number == number && Latest(db.jobs, number) == None
    ensures Inv(AddJob(db, id, NewJob(db.now, movie, number, reason, sortDate, Full, [], 1, None)))
  {
    NoJobsYet(db, number);
    NewJobShape(db.now, movie, number, reason, sortDate, Full, [], 1, None);
    AdditionKeepsInv(db, id, NewJob(db.now, movie, number, reason, sortDate, Full, [], 1, None));
  }

  /** A queued job's priority, reason and date may be rewritten. */
  lemma PromotionKeepsInv(db: Db, id: Uuid, reason: Reason, sortDate: Option<int>)
    requires Inv(db) && id in db.jobs && db.jobs[id].status == Queued
    ensures Inv(db.(jobs := db.jobs[id := Promoted(db.jobs[id], reason, sortDate)]))
  {
    hide Inv;
    RowFacts(db, id);
    var job := Promoted(db.jobs[id], reason, sortDate);
    RowUpdateKeepsInv(db, id, job);
  }

  /** Rewriting an active job's row without touching its movie, its claim owner or making it live. */
  lemma RowUpdateKeepsInv(db: Db, id: Uuid, job: Job)
    requires Inv(db) && id in db.jobs && Active(db.jobs[id]) && SameIdentity(db.jobs[id], job) && RowShape(job)
    requires StateFor(job.status) == StateFor(db.jobs[id].status) || db.movies[db.jobs[id].movie].state == CoreReady
    requires !NeedsCore(job) || db.movies[db.jobs[id].movie].state == CoreReady
    requires job.claim.Some? ==> SameOwner(db.jobs[id], job)
    requires id in Live(db.jobs[id := job], db.now) ==> id in Live(db.jobs, db.now)
    ensures Inv(db.(jobs := db.jobs[id := job]))
  {
    hide Attempts, OldAttemptsTerminal, Lineage, CoreBehindJobs, Rows, RowShape, Owners, Slots;
    var db' := db.(jobs := db.jobs[id := job]);
    var state := db.movies[job.movie].state;
    ActiveIsLatest(db.jobs, id);
    assert state == CoreReady || state == DerivedState(db.jobs, db.movies[job.movie].number);
    assert db.movies[job.movie].(state := state) == db.movies[job.movie];
    assert Rewritten(db, id, job, state) == db';
    UpdateKeepsInv(db, id, job, state);
    ClaimsKeptOrDropped(db, db', id);
  }

  lemma EnqueueKeepsInv(db: Db, movie: Uuid, number: string, sortDate: Option<int>, reason: Reason, id: Uuid)
    requires Inv(db) && id !in db.jobs
    ensures Inv(Enqueue(db, movie, number, sortDate, reason, id).0)
  {
    hide Inv;
    if movie in db.movies && db.movies[movie].number == number && Latest(db.jobs, number) == None {
      FirstJobKeepsInv(db, movie, number, reason, sortDate, id);
    }
  }

  lemma EnsureSearchKeepsInv(db: Db, movie: Uuid, number: string, sortDate: Option<int>, id: Uuid)
    requires Inv(db) && id !in db.jobs
    ensures Inv(EnsureSearch(db, movie, number, sortDate, id).0)
  {
    hide Inv;
    if movie in db.movies && db.movies[movie].number == number {
      LatestMeaning(db.jobs, number);
      match Latest(db.jobs, number)
      case None => FirstJobKeepsInv(db, movie, number, ManualOrSearch, sortDate, id);
      case Some(existing) =>
        if db.jobs[existing].status == Queued {
          PromotionKeepsInv(db, existing, ManualOrSearch, sortDate);
        }
    }
  }

  lemma EnsureRankingKeepsInv(db: Db, movie: Uuid, number: string, sortDate: Option<int>, id: Uuid)
    requires Inv(db) && id !in db.jobs
    ensures Inv(EnsureRanking(db, movie, number, sortDate, id).0)
  {
    hide Inv;
    if movie in db.movies && db.movies[movie].number == number {
      LatestMeaning(db.jobs, number);
      match Latest(db.jobs, number)
      case None => FirstJobKeepsInv(db, movie, number, Ranking, sortDate, id);
      case Some(existing) =>
        if db.jobs[existing].status == Queued {
          PromotionKeepsInv(db, existing, Ranking, sortDate);
        }
    }
  }

  lemma NewestDone(db: Db, id: Uuid)
    requires Inv(db) && id in db.jobs && IsLatest(db.jobs, db.jobs[id].number, id) && !Active(db.jobs[id])
    ensures NoActive(db.jobs, db.jobs[id].number)
  {
    forall k | k in db.jobs && db.jobs[k].number == db.jobs[id].number ensures !Active(db.jobs[k]) {
      assert k == id || Precedes(db.jobs[k], db.jobs[id]) || SameAttempt(db.jobs[k], db.jobs[id]);
    }
  }

  /** Any job of a number without active jobs may become the parent of its next attempt. */
  lemma NextJobKeepsInv(db: Db, parent: Uuid, sortDate: Option<int>, mode: RetryMode, requested: seq<Stage>, id: Uuid)
    requires Inv(db) && id !in db.jobs && parent in db.jobs && NoActive(db.jobs, db.jobs[parent].number)
    requires (mode == Full <==> requested == []) && JavdbCore !in requested
    requires mode == MissingEnrichment ==> db.movies[db.jobs[parent].movie].state == CoreReady
    ensures var p := db.jobs[parent];
            var job := NewJob(db.now, p.movie, p.number, ManualOrSearch, sortDate, mode, requested,
                              NextAttempt(db.jobs, p.number), Some(parent));
            Inv(AddJob(db, id, job))
  {
    var p := db.jobs[parent];
    var n := NextAttempt(db.jobs, p.number);
    NewJobShape(db.now, p.movie, p.number, ManualOrSearch, sortDate, mode, requested, n, Some(parent));
    AdditionKeepsInv(db, id, NewJob(db.now, p.movie, p.number, ManualOrSearch, sortDate, mode, requested, n, Some(parent)));
  }

  lemma RescrapeKeepsInv(db: Db, movie: Uuid, id: Uuid)
    requires Inv(db) && id !in db.jobs
    ensures Inv(Rescrape(db, movie, id).0)
  {
    hide AttemptHistory, Attempts, CatalogFollowsJobs, CoreBehindJobs, Rows, Owners, Slots;
    if movie in db.movies {
      var number := db.movies[movie].number;
      LatestMeaning(db.jobs, number);
      match Latest(db.jobs, number)
      case None => FirstJobKeepsInv(db, movie, number, ManualOrSearch, None, id);
      case Some(latest) =>
        var job := db.jobs[latest];
        if job.status == Queued {
          PromotionKeepsInv(db, latest, ManualOrSearch, None);
        } else if job.status != Running {
          NewestDone(db, latest);
          NextJobKeepsInv(db, latest, job.sortDate, Full, [], id);
          assert job.movie == movie;
        }
    }
  }

  lemma ManualRetryKeepsInv(db: Db, parent: Uuid, id: Uuid)
    requires Inv(db) && id !in db.jobs
    ensures Inv(ManualRetry(db, parent, id).0)
  {
    hide Inv;
    if parent in db.jobs {
      RowFacts(db, parent);
    }
    if parent in db.jobs && NoActive(db.jobs, db.jobs[parent].number) {
      NextJobKeepsInv(db, parent, db.jobs[parent].sortDate, Full, [], id);
    }
  }

  lemma {:induction false} ChosenStages(wanted: seq<Stage>, order: seq<Stage>)
    ensures forall s :: s in Chosen(wanted, order) <==> s in wanted && s in order
  {
    if order != [] {
      ChosenStages(wanted, order[1..]);
    }
  }

  lemma ValidatedStages(stages: seq<Stage>)
    ensures var r := ValidateEnrichment(stages);
            r.Some? ==> r.value != [] && forall s :: s in r.value <==> s in stages
    ensures ValidateEnrichment(stages).Some? ==> JavdbCore !in ValidateEnrichment(stages).value
  {
    ChosenStages(stages, OPTIONAL_STAGES);
    if ValidateEnrichment(stages).Some? {
      forall s | s in stages ensures s in OPTIONAL_STAGES {
        OptionalStages(s);
      }
      assert stages[0] in Chosen(stages, OPTIONAL_STAGES);
    }
  }

  lemma OptionalStages(s: Stage)
    ensures s in OPTIONAL_STAGES <==> s != JavdbCore
  {
    assert OPTIONAL_STAGES[0] == Images && OPTIONAL_STAGES[1] == Dmm && OPTIONAL_STAGES[2] == ActorMap;
    assert OPTIONAL_STAGES[3] == Gfriends && OPTIONAL_STAGES[4] == Translation;
  }

  lemma RetryEnrichmentKeepsInv(db: Db, parent: Uuid, stages: seq<Stage>, id: Uuid)
    requires Inv(db) && id !in db.jobs
    ensures Inv(RetryEnrichment(db, parent, stages, id).0)
  {
    hide Inv;
    var requested := ValidateEnrichment(stages);
    ValidatedStages(stages);
    if parent in db.jobs {
      RowFacts(db, parent);
    }
    if requested.Some? && parent in db.jobs && NoActive(db.jobs, db.jobs[parent].number)
       && forall s :: s in requested.value ==> Retryable(db, parent, s) {
      assert Retryable(db, parent, requested.value[0]);
      NextJobKeepsInv(db, parent, db.jobs[parent].sortDate, MissingEnrichment, requested.value, id);
    }
  }

  // ---------------------------------------------------------------- claiming keeps the invariant

  lemma ResetShape(job: Job, owner: Uuid, now: int, lease: int)
    requires RowShape(job) && Active(job)
    ensures RowShape(ClaimedRow(job, owner, now, lease))
  {
  }

  lemma ClaimKeepsClaims(db: Db, db': Db, id: Uuid, owner: Uuid)
    requires Owners(db.jobs, db.issued) && |Live(db.jobs, db.now)| < MAX_RUNNING_JOBS && owner !in db.issued
    requires id in db'.jobs && db'.jobs == db.jobs[id := db'.jobs[id]] && db'.issued == db.issued + {owner} && db'.now == db.now
    requires db'.jobs[id].claim.Some? && db'.jobs[id].claim.value.owner == owner
    ensures Owners(db'.jobs, db'.issued) && Slots(db'.jobs, db'.now)
  {
    assert Live(db'.jobs, db'.now) <= Live(db.jobs, db.now) + {id};
    SubsetSize(Live(db'.jobs, db'.now), Live(db.jobs, db.now) + {id});
    forall a, b | a in db'.jobs && b in db'.jobs && SameOwner(db'.jobs[a], db'.jobs[b]) ensures a == b {
      assert a != id && b != id ==> SameOwner(db.jobs[a], db.jobs[b]);
    }
  }

  lemma ClaimKeepsInv(db: Db, lease: int, owner: Uuid)
    requires Inv(db) && owner !in db.issued
    ensures Inv(ClaimNext(db, lease, owner).0)
  {
    hide AttemptHistory, CatalogFollowsJobs, CoreBehindJobs, Rows, RowShape, Owners, MoviesMatch;
    var (db', reply) := ClaimNext(db, lease, owner);
    if reply.Claimed? {
      var id := reply.ticket.job;
      ClaimedRowIsGood(db, id, owner, lease);
      var job := ClaimedRow(db.jobs[id], owner, db.now, lease);
      var state := if db.movies[job.movie].state == CoreReady then CoreReady else MetadataRunning;
      assert Rewritten(db, id, job, state).movies == db'.movies;
      UpdateKeepsInv(db, id, job, state);
      ClaimKeepsClaims(db, db', id, owner);
    }
  }

  lemma ClaimedRowIsGood(db: Db, id: Uuid, owner: Uuid, lease: int)
    requires Inv(db) && Claimable(db.jobs, db.now, id)
    ensures var job := ClaimedRow(db.jobs[id], owner, db.now, lease);
            && job.movie in db.movies
            && GoodUpdate(db, id, job, if db.movies[job.movie].state == CoreReady then CoreReady else MetadataRunning)
  {
    ResetShape(db.jobs[id], owner, db.now, lease);
  }

  // ---------------------------------------------------------------- working under a claim

  lemma RenewKeepsInv(db: Db, t: Ticket, lease: int)
    requires Inv(db)
    ensures Inv(Renew(db, t, lease).0) && Inv(Expire(db, t).0)
  {
    hide Inv;
    if Held(db, t) {
      RowFacts(db, t.job);
      RowUpdateKeepsInv(db, t.job, db.jobs[t.job].(claim := Some(Lease(t.owner, db.now))));
      if HeldNow(db, t) {
        RowUpdateKeepsInv(db, t.job, db.jobs[t.job].(claim := Some(Lease(t.owner, db.now + lease))));
      }
    }
  }

  lemma StageWriteShape(job: Job, stage: Stage, status: StageStatus)
    requires RowShape(job) && job.status == Running
    requires stage in job.stages && StageOpen(job.stages[stage]) && status != StageSkipped
    ensures RowShape(job.(stages := job.stages[stage := status]))
  {
  }

  lemma StageWriteKeepsInv(db: Db, t: Ticket, stage: Stage, status: StageStatus)
    requires Inv(db) && Held(db, t) && stage in db.jobs[t.job].stages
    requires StageOpen(db.jobs[t.job].stages[stage]) && status != StageSkipped
    ensures Inv(WithJob(db, t.job, db.jobs[t.job].(stages := db.jobs[t.job].stages[stage := status])))
  {
    hide Inv;
    RowFacts(db, t.job);
    StageWriteShape(db.jobs[t.job], stage, status);
    RowUpdateKeepsInv(db, t.job, db.jobs[t.job].(stages := db.jobs[t.job].stages[stage := status]));
  }

  lemma StageStepKeepsInv(db: Db, t: Ticket, stage: Stage, result: StageStatus)
    requires Inv(db) && (result == StageSucceeded || StageWarned(result))
    ensures Inv(StartStage(db, t, stage).0) && Inv(FinishStage(db, t, stage, result).0)
  {
    hide Inv, RowShape;
    if HeldNow(db, t) && stage in db.jobs[t.job].stages {
      if db.jobs[t.job].stages[stage] == StagePending {
        StageWriteKeepsInv(db, t, stage, StageRunning);
      } else if db.jobs[t.job].stages[stage] == StageRunning {
        StageWriteKeepsInv(db, t, stage, result);
      }
    }
  }

  lemma CompleteKeepsInv(db: Db, t: Ticket, withWarnings: bool)
    requires Inv(db)
    ensures Inv(Complete(db, t, withWarnings).0)
  {
    hide Inv;
    if Complete(db, t, withWarnings).1.Done? {
      RowFacts(db, t.job);
      var job := db.jobs[t.job];
      RowUpdateKeepsInv(db, t.job, Finished(job, if withWarnings then CompletedWithWarnings else Completed, db.now, None));
    }
  }

  lemma FailedShape(job: Job, victim: Option<Stage>, now: int, code: string)
    requires RowShape(job) && job.status == Running && IsVictim(job.stages, victim)
    ensures RowShape(Finished(job.(stages := CloseStage(job.stages, victim)), Failed, now, Some(code)))
  {
  }

  lemma FailKeepsInv(db: Db, t: Ticket, code: string, requireUnexpired: bool, victim: Option<Stage>)
    requires Inv(db) && (t.job in db.jobs ==> IsVictim(db.jobs[t.job].stages, victim))
    ensures Inv(Fail(db, t, code, requireUnexpired, victim).0)
  {
    hide AttemptHistory, CatalogFollowsJobs, CoreBehindJobs, Rows, RowShape, Owners, Slots, MoviesMatch;
    var (db', reply) := Fail(db, t, code, requireUnexpired, victim);
    if reply.Done? {
      RowFacts(db, t.job);
      var job := db.jobs[t.job];
      FailedShape(job, victim, db.now, code);
      var failed := db'.jobs[t.job];
      var state := if db.movies[job.movie].state == CoreReady then CoreReady else RawOnly;
      FailedIsGood(db, t.job, failed, state);
      assert Rewritten(db, t.job, failed, state).movies == db'.movies;
      UpdateKeepsInv(db, t.job, failed, state);
      ClaimsKeptOrDropped(db, db', t.job);
    }
  }

  lemma FailedIsGood(db: Db, id: Uuid, failed: Job, state: CatalogState)
    requires Inv(db) && id in db.jobs && Active(db.jobs[id]) && SameIdentity(db.jobs[id], failed) && RowShape(failed)
    requires failed.status == Failed && failed.movie in db.movies
    requires state == if db.movies[failed.movie].state == CoreReady then CoreReady else RawOnly
    ensures GoodUpdate(db, id, failed, state)
  {
  }

  lemma ImportKeepsInv(db: Db, t: Ticket, movie: Uuid, number: string, conflict: bool)
    requires Inv(db)
    ensures Inv(ImportCore(db, t, movie, number, conflict).0)
  {
    hide Attempts, OldAttemptsTerminal, Lineage, CatalogFollowsJobs, CoreBehindJobs, Rows, Owners, Slots, MoviesMatch;
    var (db', reply) := ImportCore(db, t, movie, number, conflict);
    if reply.Done? {
      RowFacts(db, t.job);
      var job := db.jobs[t.job];
      assert db.jobs[t.job := job] == db.jobs;
      assert Rewritten(db, t.job, job, CoreReady) == db';
      UpdateKeepsInv(db, t.job, job, CoreReady);
    }
  }

  lemma TickKeepsInv(db: Db, elapsed: int)
    requires Inv(db) && elapsed >= 0
    ensures Inv(db.(now := db.now + elapsed))
  {
    hide AttemptHistory, CatalogFollowsJobs, CoreBehindJobs, Rows, MoviesMatch;
    SubsetSize(Live(db.jobs, db.now + elapsed), Live(db.jobs, db.now));
  }

  lemma AddMovieKeepsInv(db: Db, movie: Uuid, number: string)
    requires Inv(db) && Allowed(db, DoAddMovie(movie, number))
    ensures Inv(Step(db, DoAddMovie(movie, number)))
  {
    LatestMeaning(db.jobs, number);
    var db' := Step(db, DoAddMovie(movie, number));
    assert Latest(db.jobs, number) == None;
  }

  lemma PauseKeepsInv(db: Db, paused: bool)
    requires Inv(db)
    ensures Inv(db.(paused := paused))
  {
  }

  // ---------------------------------------------------------------- every reachable state

  lemma StepKeepsInv(db: Db, a: Action)
    requires Inv(db) && Allowed(db, a)
    ensures Inv(Step(db, a))
  {
    hide Inv;
    match a
    case DoAddMovie(movie, number) => AddMovieKeepsInv(db, movie, number);
    case DoEnqueue(movie, number, sortDate, reason, id) => EnqueueKeepsInv(db, movie, number, sortDate, reason, id);
    case DoEnsureSearch(movie, number, sortDate, id) => EnsureSearchKeepsInv(db, movie, number, sortDate, id);
    case DoEnsureRanking(movie, number, sortDate, id) => EnsureRankingKeepsInv(db, movie, number, sortDate, id);
    case DoRescrape(movie, id) => RescrapeKeepsInv(db, movie, id);
    case DoManualRetry(parent, id) => ManualRetryKeepsInv(db, parent, id);
    case DoRetryEnrichment(parent, stages, id) => RetryEnrichmentKeepsInv(db, parent, stages, id);
    case DoSetPaused(paused) => PauseKeepsInv(db, paused);
    case DoClaimNext(lease, owner) => ClaimKeepsInv(db, lease, owner);
    case DoRenew(t, lease) => RenewKeepsInv(db, t, lease);
    case DoExpire(t) => RenewKeepsInv(db, t, 1);
    case DoStartStage(t, stage) => StageStepKeepsInv(db, t, stage, StageSucceeded);
    case DoFinishStage(t, stage, result) => StageStepKeepsInv(db, t, stage, result);
    case DoComplete(t, withWarnings) => CompleteKeepsInv(db, t, withWarnings);
    case DoFail(t, code, requireUnexpired, victim) => FailKeepsInv(db, t, code, requireUnexpired, victim);
    case DoImportCore(t, movie, number, conflict) => ImportKeepsInv(db, t, movie, number, conflict);
    case DoTick(elapsed) => TickKeepsInv(db, elapsed);
  }

  /** The invariant holds in every state a run can reach from a sound one. */
  lemma {:induction false} RunKeepsInv(db: Db, actions: seq<Action>)
    requires Inv(db) && AllowedRun(db, actions)
    ensures Inv(Run(db, actions))
    decreases |actions|
  {
    hide Inv;
    if actions != [] {
      StepKeepsInv(db, actions[0]);
      RunKeepsInv(Step(db, actions[0]), actions[1..]);
    }
  }
}
