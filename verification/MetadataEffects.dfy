/** What each transaction of the metadata queue achieves, seen through the transactions that can
    follow it. */
module MetadataEffects {
  import opened Wrappers
  import opened MetadataModel
  import opened MetadataInvariants
  import opened MetadataRuns
  import opened MetadataProperties

  /** The same tables at another instant; a later one is reached by a tick of the clock. */
  function At(db: Db, now: int): (db': Db)
    ensures now >= db.now ==> Allowed(db, DoTick(now - db.now)) && db' == Step(db, DoTick(now - db.now))
  {
    db.(now := now)
  }

  /** Only this job's row and its movie's state may have changed. */
  ghost predicate OthersKept(db: Db, db': Db, id: Uuid) {
    && id in db'.jobs && db'.now == db.now && db'.paused == db.paused && db'.movies.Keys == db.movies.Keys
    && db'.jobs == db.jobs[id := db'.jobs[id]]
    && (forall m :: m in db.movies && m != db'.jobs[id].movie ==> db'.movies[m] == db.movies[m])
  }

  // ---------------------------------------------------------------- claims

  /** The open stages are pending again, the settled ones kept. */
  predicate Reopened(before: StageTable, after: StageTable) {
    && after.Keys == before.Keys
    && (forall s :: s in before ==> after[s] == if StageOpen(before[s]) then StagePending else before[s])
  }

  /** The place of a stage in the pipeline. */
  function Place(stage: Stage): nat {
    match stage
    case JavdbCore => 0
    case Images => 1
    case Dmm => 2
    case ActorMap => 3
    case Gfriends => 4
    case Translation => 5
  }

  ghost predicate InPlanOrder(stages: seq<Stage>) {
    forall i, j :: 0 <= i < j < |stages| ==> Place(stages[i]) < Place(stages[j])
  }

  /** A claim leaves no stage running: every open one is pending again, every settled one is kept, and
      exactly the open ones are announced, in the order of the pipeline. A job started once keeps the
      instant of its first start. */
  lemma ClaimPreparesStages(db: Db, lease: int, owner: Uuid)
    requires Inv(db) && ClaimNext(db, lease, owner).1.Claimed?
    ensures var (db', reply) := ClaimNext(db, lease, owner);
            var id := reply.ticket.job;
            && id in db.jobs && OthersKept(db, db', id) && SameIdentity(db.jobs[id], db'.jobs[id])
            && Reopened(db.jobs[id].stages, db'.jobs[id].stages)
            && (forall s :: s in reply.pending <==> s in db.jobs[id].stages && StageOpen(db.jobs[id].stages[s]))
            && InPlanOrder(reply.pending) && (reply.hasWarnings <==> AnyWarned(db.jobs[id].stages))
            && db'.jobs[id].startedAt == Some(if db.jobs[id].startedAt.Some? then db.jobs[id].startedAt.value else db.now)
  {
    hide Inv, ClaimNext, AnyWarned, StagesIn, InPlanOrder, Reopened, ClaimedRow;
    ClaimWritesRow(db, lease, owner);
    var (db', reply) := ClaimNext(db, lease, owner);
    var id := reply.ticket.job;
    ClaimReopens(db, id, owner, lease);
    AnnouncedInOrder(db'.jobs[id].stages);
    OpenArePending(db.jobs[id].stages, db'.jobs[id].stages);
  }

  lemma OpenArePending(before: StageTable, after: StageTable)
    requires Reopened(before, after)
    ensures forall s :: s in after && after[s] == StagePending <==> s in before && StageOpen(before[s])
    ensures AnyWarned(after) <==> AnyWarned(before)
  {
    SameWarnings(before, after);
  }

  lemma ClaimWritesRow(db: Db, lease: int, owner: Uuid)
    requires Inv(db) && ClaimNext(db, lease, owner).1.Claimed?
    ensures var (db', reply) := ClaimNext(db, lease, owner);
            var id := reply.ticket.job;
            && Claimable(db.jobs, db.now, id) && OthersKept(db, db', id) && db'.jobs[id] == ClaimedRow(db.jobs[id], owner, db.now, lease)
            && reply.pending == StagesIn(db'.jobs[id].stages, StagePending, ALL_STAGES)
            && reply.hasWarnings == AnyWarned(db'.jobs[id].stages)
  {
    hide Inv, ClaimedRow, AnyWarned, StagesIn;
  }

  lemma ClaimReopens(db: Db, id: Uuid, owner: Uuid, lease: int)
    requires Inv(db) && Claimable(db.jobs, db.now, id)
    ensures var (before, after) := (db.jobs[id], ClaimedRow(db.jobs[id], owner, db.now, lease));
            && Reopened(before.stages, after.stages) && SameIdentity(before, after)
            && after.startedAt == Some(if before.startedAt.Some? then before.startedAt.value else db.now)
  {
    hide Inv;
    RowFacts(db, id);
  }

  lemma AnnouncedInOrder(stages: StageTable)
    ensures var found := StagesIn(stages, StagePending, ALL_STAGES);
            InPlanOrder(found) && forall s :: s in found <==> s in stages && stages[s] == StagePending
  {
    hide StagesIn;
    PendingStages(stages, StagePending, ALL_STAGES);
    StagesInOrder(stages, StagePending, ALL_STAGES);
    forall s: Stage ensures s in ALL_STAGES {
      assert ALL_STAGES[Place(s)] == s;
    }
  }

  lemma {:induction false} StagesInOrder(stages: StageTable, wanted: StageStatus, order: seq<Stage>)
    requires InPlanOrder(order)
    ensures InPlanOrder(StagesIn(stages, wanted, order))
  {
    if order != [] {
      StagesInOrder(stages, wanted, order[1..]);
      PendingStages(stages, wanted, order[1..]);
      var rest := StagesIn(stages, wanted, order[1..]);
      forall k | 0 <= k < |rest| ensures Place(order[0]) < Place(rest[k]) {
        assert rest[k] in order[1..];
      }
    }
  }

  lemma SameWarnings(before: StageTable, after: StageTable)
    ensures after.Keys == before.Keys && (forall s :: s in before ==> StageWarned(after[s]) == StageWarned(before[s])) ==>
              (AnyWarned(after) <==> AnyWarned(before))
  {
    if after.Keys == before.Keys && forall s :: s in before ==> StageWarned(after[s]) == StageWarned(before[s]) {
      assert forall s :: s in before <==> s in after;
    }
  }

  /** So under a new claim exactly the announced stages can be started. */
  lemma AnnouncedStagesStart(db: Db, lease: int, owner: Uuid, stage: Stage)
    requires Inv(db) && lease > 0 && ClaimNext(db, lease, owner).1.Claimed?
    ensures var (db', reply) := ClaimNext(db, lease, owner);
            StartStage(db', reply.ticket, stage).1 == if stage in reply.pending then Done else Refused(StageConflict)
  {
    hide Inv, ClaimNext;
    ClaimTakesLeast(db, lease, owner);
    ClaimPreparesStages(db, lease, owner);
  }

  /** A claim is held for exactly the length of its lease, unless something ends it; then its job
      can be claimed again. */
  lemma ClaimLastsItsLease(db: Db, lease: int, owner: Uuid, later: int)
    requires Inv(db) && ClaimNext(db, lease, owner).1.Claimed? && db.now <= later
    ensures var (db', reply) := ClaimNext(db, lease, owner);
            && (HeldNow(At(db', later), reply.ticket) <==> later < db.now + lease)
            && (Claimable(db'.jobs, later, reply.ticket.job) <==> later >= db.now + lease)
  {
    hide Inv;
  }

  /** A renewal starts the lease again. */
  lemma RenewalLastsItsLease(db: Db, t: Ticket, lease: int, later: int)
    requires HeldNow(db, t) && db.now <= later && lease > 0
    ensures var (db', reply) := (Step(db, DoRenew(t, lease)), Renew(db, t, lease).1);
            && reply == Done && OthersKept(db, db', t.job) && db'.movies == db.movies
            && db'.jobs[t.job] == db.jobs[t.job].(claim := db'.jobs[t.job].claim)
            && (HeldNow(At(db', later), t) <==> later < db.now + lease)
            && (Claimable(db'.jobs, later, t.job) <==> later >= db.now + lease)
  {
  }

  /** An expired claim is not held any more, and its job can be claimed at once. */
  lemma ExpiryFreesTheJob(db: Db, t: Ticket, later: int)
    requires Held(db, t) && db.now <= later
    ensures var (db', reply) := (Step(db, DoExpire(t)), Expire(db, t).1);
            && reply == Done && OthersKept(db, db', t.job) && db'.movies == db.movies
            && db'.jobs[t.job] == db.jobs[t.job].(claim := db'.jobs[t.job].claim)
            && !HeldNow(At(db', later), t) && Claimable(db'.jobs, later, t.job)
  {
  }

  /** Nothing is claimed while the queue is paused, and the pause changes nothing else. */
  lemma PauseStopsClaims(db: Db, lease: int, owner: Uuid)
    ensures ClaimNext(Step(db, DoSetPaused(true)), lease, owner) == (Step(db, DoSetPaused(true)), Idle)
    ensures Step(Step(db, DoSetPaused(true)), DoSetPaused(false)) == Step(db, DoSetPaused(false))
    ensures !db.paused ==> Step(Step(db, DoSetPaused(true)), DoSetPaused(false)) == db
  {
  }

  // ---------------------------------------------------------------- stages

  /** Only this stage of the job changed. */
  predicate StageSet(db: Db, db': Db, id: Uuid, stage: Stage, status: StageStatus) {
    && id in db.jobs && stage in db.jobs[id].stages
    && db' == db.(jobs := db.jobs[id := db.jobs[id].(stages := db.jobs[id].stages[stage := status])])
  }

  /** Under a held claim exactly a pending stage starts, and it starts once. */
  lemma StageStarts(db: Db, t: Ticket, stage: Stage)
    requires HeldNow(db, t)
    ensures var (db', reply) := (Step(db, DoStartStage(t, stage)), StartStage(db, t, stage).1);
            && (reply == Done <==> stage in db.jobs[t.job].stages && db.jobs[t.job].stages[stage] == StagePending)
            && (if reply == Done then StageSet(db, db', t.job, stage, StageRunning) else db' == db)
            && (reply == Done ==> StartStage(db', t, stage) == (db', Refused(StageConflict)))
  {
  }

  /** Exactly a running stage takes a result, and takes it once: afterwards it can be neither started nor
      finished again. */
  lemma StageTakesOneResult(db: Db, t: Ticket, stage: Stage, result: StageStatus, again: StageStatus)
    requires HeldNow(db, t) && Allowed(db, DoFinishStage(t, stage, result)) && Allowed(db, DoFinishStage(t, stage, again))
    ensures var (db', reply) := (Step(db, DoFinishStage(t, stage, result)), FinishStage(db, t, stage, result).1);
            && (reply == Done <==> stage in db.jobs[t.job].stages && db.jobs[t.job].stages[stage] == StageRunning)
            && (if reply == Done then StageSet(db, db', t.job, stage, result) else db' == db)
            && (reply == Done ==>
                  StartStage(db', t, stage) == (db', Refused(StageConflict))
                  && FinishStage(db', t, stage, again) == (db', Refused(StageConflict)))
  {
  }

  // ---------------------------------------------------------------- endings

  /** A job completes exactly under a held claim, once its movie has its core, no stage is open and
      the worker's word about warnings is true; it is then out of reach of every claim. */
  lemma CompletesExactly(db: Db, t: Ticket, withWarnings: bool, later: int)
    requires Inv(db)
    ensures var (db', reply) := (Step(db, DoComplete(t, withWarnings)), Complete(db, t, withWarnings).1);
            && (reply == Done <==>
                  && HeldNow(db, t) && db.movies[db.jobs[t.job].movie].state == CoreReady
                  && !AnyOpen(db.jobs[t.job].stages) && (withWarnings <==> AnyWarned(db.jobs[t.job].stages)))
            && (reply == Done ==>
                  && OthersKept(db, db', t.job) && db'.movies == db.movies
                  && db'.jobs[t.job].status == (if withWarnings then CompletedWithWarnings else Completed)
                  && db'.jobs[t.job].stages == db.jobs[t.job].stages && db'.jobs[t.job].finishedAt == Some(db.now)
                  && db'.jobs[t.job].failureCode == None
                  && !Held(db', t) && !Claimable(db'.jobs, later, t.job))
  {
    hide AttemptHistory, CatalogFollowsJobs, CoreBehindJobs, Rows, Owners, Slots, AnyOpen, AnyWarned;
  }

  /** A failure is recorded with its code, gives the claim up, takes a movie without its core back to
      raw, and the job can be retried by hand at once. */
  lemma FailureCanBeRetried(db: Db, t: Ticket, code: string, requireUnexpired: bool, victim: Option<Stage>, id: Uuid)
    requires Inv(db) && Held(db, t) && (requireUnexpired ==> HeldNow(db, t))
    requires Allowed(db, DoFail(t, code, requireUnexpired, victim))
    requires id !in db.jobs
    ensures var (db', reply) := (Step(db, DoFail(t, code, requireUnexpired, victim)), Fail(db, t, code, requireUnexpired, victim).1);
            && reply == Done && OthersKept(db, db', t.job) && !Held(db', t)
            && db'.jobs[t.job].status == Failed && db'.jobs[t.job].failureCode == Some(code)
            && db'.jobs[t.job].finishedAt == Some(db.now)
            && db'.movies[db.jobs[t.job].movie].state == (if db.movies[db.jobs[t.job].movie].state == CoreReady then CoreReady else RawOnly)
            && ManualRetry(db', t.job, id).1 == Enqueued(id, true)
  {
    hide CatalogFollowsJobs, CoreBehindJobs, Rows, Owners, Slots, Attempts, OldAttemptsTerminal, Lineage, Latest;
    var db' := Fail(db, t, code, requireUnexpired, victim).0;
    forall k | k in db'.jobs && db'.jobs[k].number == db.jobs[t.job].number ensures !Active(db'.jobs[k]) {
      if k != t.job && Active(db.jobs[k]) {
        AtMostOneActive(db, k, t.job);
      }
    }
  }

  /** The core is imported exactly under a held claim, while its core stage runs, for the job's own movie
      and number, without an identity conflict; nothing but the movie's state changes. */
  lemma ImportsExactly(db: Db, t: Ticket, movie: Uuid, number: string, conflict: bool)
    requires Inv(db)
    ensures var (db', reply) := (Step(db, DoImportCore(t, movie, number, conflict)), ImportCore(db, t, movie, number, conflict).1);
            && (reply == Done <==>
                  && HeldNow(db, t) && db.jobs[t.job].movie == movie && db.jobs[t.job].number == number && !conflict
                  && db.jobs[t.job].stages[JavdbCore] == StageRunning)
            && (reply != Done ==> db' == db)
            && (reply == Done ==>
                  && movie in db.movies && db'.movies == db.movies[movie := Movie(db.movies[movie].number, CoreReady)]
                  && db' == db.(movies := db'.movies))
  {
    hide AttemptHistory, CatalogFollowsJobs, CoreBehindJobs, Rows, Owners, Slots;
    if t.job in db.jobs {
      RowFacts(db, t.job);
    }
  }

  // ---------------------------------------------------------------- new attempts

  /** What a new attempt is: queued, the newest of its number, numbered next, with exactly the
      planned stages pending. */
  ghost predicate NewAttempt(db: Db, db': Db, id: Uuid, movie: Uuid, reason: Reason, sortDate: Option<int>,
                             requested: Option<seq<Stage>>, parent: Option<Uuid>)
  {
    && id !in db.jobs && OthersKept(db, db', id) && movie in db.movies
    && var (job, number) := (db'.jobs[id], db.movies[movie].number);
    && job.movie == movie && job.number == number && job.reason == reason && job.sortDate == sortDate
    && job.parent == parent && job.createdAt == db.now && job.status == Queued && job.claim == None
    && (job.retryMode == Full <==> requested == None)
    && (forall s :: s in job.stages ==>
          job.stages[s] == if requested == None || s in requested.value then StagePending else StageSkipped)
    && (forall s :: s in ALL_STAGES <==> s in job.stages)
    && Latest(db'.jobs, number) == Some(id) && job.attemptNo == NextAttempt(db.jobs, number)
    && db'.movies[movie].state == (if db.movies[movie].state == CoreReady then CoreReady else MetadataQueued)
  }

  lemma AddedIsNewAttempt(db: Db, id: Uuid, movie: Uuid, reason: Reason, sortDate: Option<int>, mode: RetryMode, chosen: seq<Stage>,
                          requested: Option<seq<Stage>>, parent: Option<Uuid>)
    requires Inv(db) && id !in db.jobs && movie in db.movies
    requires (mode == Full <==> requested == None) && (mode == Full <==> chosen == []) && JavdbCore !in chosen
    requires requested.Some? ==> forall s :: s in requested.value <==> s in chosen
    requires mode == MissingEnrichment ==> db.movies[movie].state == CoreReady
    requires var number := db.movies[movie].number;
             NoActive(db.jobs, number) && (parent.Some? ==> parent.value in db.jobs && db.jobs[parent.value].number == number)
    ensures var number := db.movies[movie].number;
            var job := NewJob(db.now, movie, number, reason, sortDate, mode, chosen, NextAttempt(db.jobs, number), parent);
            NewAttempt(db, AddJob(db, id, job), id, movie, reason, sortDate, requested, parent)
  {
    hide CatalogFollowsJobs, CoreBehindJobs, Rows, Owners, Slots, Attempts, OldAttemptsTerminal, Lineage, Latest, NextAttempt;
    var number := db.movies[movie].number;
    var n := NextAttempt(db.jobs, number);
    NewJobShape(db.now, movie, number, reason, sortDate, mode, chosen, n, parent);
    var job := NewJob(db.now, movie, number, reason, sortDate, mode, chosen, n, parent);
    AdditionMovesLatest(db, id, job, number);
    assert NewAttempt(db, AddJob(db, id, job), id, movie, reason, sortDate, requested, parent) by {
      hide RowShape;
    }
  }

  /** The row of a queued job after a promotion: its rank and perhaps its date are new. */
  ghost predicate PromotedTo(db: Db, db': Db, id: Uuid, reason: Reason, priority: int, sortDate: Option<int>) {
    && id in db.jobs && OthersKept(db, db', id) && db'.movies == db.movies
    && db'.jobs[id].reason == reason && db'.jobs[id].priority == priority
    && db'.jobs[id].sortDate == (if sortDate.Some? then sortDate else db.jobs[id].sortDate)
    && db'.jobs[id] == db.jobs[id].(reason := reason, priority := priority, sortDate := db'.jobs[id].sortDate)
  }

  predicate Carries(db: Db, movie: Uuid, number: string) {
    movie in db.movies && db.movies[movie].number == number
  }

  /** A number is enqueued once; later requests get the newest attempt and change nothing. */
  lemma EnqueuesOnce(db: Db, movie: Uuid, number: string, sortDate: Option<int>, reason: Reason, id: Uuid)
    requires Inv(db) && Allowed(db, DoEnqueue(movie, number, sortDate, reason, id))
    ensures var (db', reply) := (Step(db, DoEnqueue(movie, number, sortDate, reason, id)), Enqueue(db, movie, number, sortDate, reason, id).1);
            if !Carries(db, movie, number) then db' == db && reply == Refused(ResourceNotFound)
            else match Latest(db.jobs, number)
              case None => reply == Enqueued(id, true) && NewAttempt(db, db', id, movie, reason, sortDate, None, None)
              case Some(latest) => db' == db && reply == Enqueued(latest, false)
  {
    hide Inv, NewAttempt, Latest;
    if Carries(db, movie, number) && Latest(db.jobs, number) == None {
      NoJobsYet(db, number);
      AddedIsNewAttempt(db, id, movie, reason, sortDate, Full, [], None, None);
    }
  }

  /** A search makes a new attempt, or raises a queued one of a movie without its core to the first
      priority; in every other case it changes nothing. */
  lemma SearchRaisesQueued(db: Db, movie: Uuid, number: string, sortDate: Option<int>, id: Uuid)
    requires Inv(db) && Allowed(db, DoEnsureSearch(movie, number, sortDate, id))
    ensures var db' := Step(db, DoEnsureSearch(movie, number, sortDate, id));
            if !Carries(db, movie, number) then db' == db
            else match Latest(db.jobs, number)
              case None => NewAttempt(db, db', id, movie, ManualOrSearch, sortDate, None, None)
              case Some(latest) =>
                if db.movies[movie].state != CoreReady && db.jobs[latest].status == Queued
                then PromotedTo(db, db', latest, ManualOrSearch, 10, sortDate) else db' == db
  {
    hide Inv, NewAttempt, Latest;
    LatestMeaning(db.jobs, number);
    if Carries(db, movie, number) && Latest(db.jobs, number) == None {
      NoJobsYet(db, number);
      AddedIsNewAttempt(db, id, movie, ManualOrSearch, sortDate, Full, [], None, None);
    }
  }

  /** A ranking does the same for its own, lower priority, and leaves a better one alone. */
  lemma RankingRaisesQueued(db: Db, movie: Uuid, number: string, sortDate: Option<int>, id: Uuid)
    requires Inv(db) && Allowed(db, DoEnsureRanking(movie, number, sortDate, id))
    ensures var db' := Step(db, DoEnsureRanking(movie, number, sortDate, id));
            if !Carries(db, movie, number) then db' == db
            else match Latest(db.jobs, number)
              case None =>
                if db.movies[movie].state == CoreReady then db' == db
                else NewAttempt(db, db', id, movie, Ranking, sortDate, None, None)
              case Some(latest) =>
                if db.movies[movie].state != CoreReady && db.jobs[latest].status == Queued && db.jobs[latest].priority > 20
                then PromotedTo(db, db', latest, Ranking, 20, sortDate) else db' == db
  {
    hide Inv, NewAttempt, Latest;
    LatestMeaning(db.jobs, number);
    if Carries(db, movie, number) && Latest(db.jobs, number) == None {
      NoJobsYet(db, number);
      AddedIsNewAttempt(db, id, movie, Ranking, sortDate, Full, [], None, None);
    }
  }

  /** A rescrape raises a queued full attempt, reports a running one, and otherwise adds the next full
      attempt as a child of the newest; an active enrichment attempt refuses it. */
  lemma RescrapeStartsOver(db: Db, movie: Uuid, id: Uuid)
    requires Inv(db) && Allowed(db, DoRescrape(movie, id))
    ensures var (db', reply) := (Step(db, DoRescrape(movie, id)), Rescrape(db, movie, id).1);
            if movie !in db.movies then db' == db && reply == Refused(ResourceNotFound)
            else match Latest(db.jobs, db.movies[movie].number)
              case None => reply == Rescraped(id, Queued, true) && NewAttempt(db, db', id, movie, ManualOrSearch, None, None, None)
              case Some(latest) =>
                var job := db.jobs[latest];
                if !Active(job) then
                  reply == Rescraped(id, Queued, true)
                  && NewAttempt(db, db', id, movie, ManualOrSearch, job.sortDate, None, Some(latest))
                else if job.retryMode != Full then db' == db && reply == Refused(JobAlreadyActive)
                else if job.status == Queued then
                  reply == Rescraped(latest, Queued, false) && PromotedTo(db, db', latest, ManualOrSearch, 10, None)
                else db' == db && reply == Rescraped(latest, Running, false)
  {
    hide Inv, NewAttempt, Latest;
    if movie in db.movies {
      var number := db.movies[movie].number;
      LatestMeaning(db.jobs, number);
      if Latest(db.jobs, number) == None {
        NoJobsYet(db, number);
        AddedIsNewAttempt(db, id, movie, ManualOrSearch, None, Full, [], None, None);
      } else {
        var latest := Latest(db.jobs, number).value;
        if !Active(db.jobs[latest]) {
          NewestDone(db, latest);
          AddedIsNewAttempt(db, id, movie, ManualOrSearch, db.jobs[latest].sortDate, Full, [], None, Some(latest));
        }
      }
    }
  }

  /** A failed job is retried in full, as its own child, exactly while its number has no active job. */
  lemma RetriesExactly(db: Db, parent: Uuid, id: Uuid)
    requires Inv(db) && Allowed(db, DoManualRetry(parent, id))
    ensures var (db', reply) := (Step(db, DoManualRetry(parent, id)), ManualRetry(db, parent, id).1);
            var accepted := parent in db.jobs && db.jobs[parent].status == Failed && NoActive(db.jobs, db.jobs[parent].number);
            if accepted then
              reply == Enqueued(id, true)
              && NewAttempt(db, db', id, db.jobs[parent].movie, ManualOrSearch, db.jobs[parent].sortDate, None, Some(parent))
            else db' == db && reply.Refused?
  {
    hide Inv, NewAttempt, Latest;
    if parent in db.jobs {
      RowFacts(db, parent);
      if db.jobs[parent].status == Failed && NoActive(db.jobs, db.jobs[parent].number) {
        AddedIsNewAttempt(db, id, db.jobs[parent].movie, ManualOrSearch, db.jobs[parent].sortDate, Full, [], None, Some(parent));
      }
    }
  }

  ghost predicate Distinct(stages: seq<Stage>) {
    forall i, j :: 0 <= i < j < |stages| ==> stages[i] != stages[j]
  }

  ghost predicate EnrichmentAccepted(db: Db, parent: Uuid, stages: seq<Stage>) {
    && stages != [] && Distinct(stages) && (forall s :: s in stages ==> Retryable(db, parent, s))
    && parent in db.jobs && NoActive(db.jobs, db.jobs[parent].number)
  }

  /** Missing enrichment is retried exactly for a choice of distinct retryable stages of a job whose
      number has no active one; the new attempt does those stages and skips the others. */
  lemma EnrichmentRetriesExactly(db: Db, parent: Uuid, stages: seq<Stage>, id: Uuid)
    requires Inv(db) && Allowed(db, DoRetryEnrichment(parent, stages, id))
    ensures var (db', reply) := (Step(db, DoRetryEnrichment(parent, stages, id)), RetryEnrichment(db, parent, stages, id).1);
            if EnrichmentAccepted(db, parent, stages) then
              reply == Enqueued(id, true)
              && NewAttempt(db, db', id, db.jobs[parent].movie, ManualOrSearch, db.jobs[parent].sortDate, Some(stages), Some(parent))
            else db' == db && reply.Refused?
  {
    hide Inv, NewAttempt, Latest, LatestNonSkipped, Chosen;
    ValidatedStages(stages);
    forall s | s in stages && Retryable(db, parent, s) ensures s != JavdbCore {
      OptionalStages(s);
    }
    assert stages != [] ==> stages[0] in stages;
    if stages != [] && Distinct(stages) && (forall s :: s in stages ==> Retryable(db, parent, s)) {
      RowFacts(db, parent);
      if NoActive(db.jobs, db.jobs[parent].number) {
        AddedIsNewAttempt(db, id, db.jobs[parent].movie, ManualOrSearch, db.jobs[parent].sortDate, MissingEnrichment,
                          ValidateEnrichment(stages).value, Some(stages), Some(parent));
      }
    }
  }

  /** After a search that answered "queued", whatever is claimed next has at least its priority. */
  lemma SearchedComesFirst(db: Db, movie: Uuid, number: string, sortDate: Option<int>, id: Uuid, lease: int, owner: Uuid)
    requires Inv(db) && id !in db.jobs && lease > 0 && EnsureSearch(db, movie, number, sortDate, id).1.JobState?
    requires EnsureSearch(db, movie, number, sortDate, id).1.state == Queued
    ensures var db' := EnsureSearch(db, movie, number, sortDate, id).0;
            var reply := ClaimNext(db', lease, owner).1;
            reply.Claimed? ==> db'.jobs[reply.ticket.job].priority <= 10
  {
    hide Inv, Latest, ClaimNext;
    var (db', searched) := EnsureSearch(db, movie, number, sortDate, id);
    LatestMeaning(db.jobs, number);
    EnsureSearchKeepsInv(db, movie, number, sortDate, id);
    ClaimTakesLeast(db', lease, owner);
    assert Claimable(db'.jobs, db'.now, searched.id) && db'.jobs[searched.id].priority == 10;
  }
}
