/** What a run of the metadata queue never undoes, how claims are fenced and ordered, and which
    stages may be retried. */
module MetadataProperties {
  import opened Wrappers
  import opened MetadataModel
  import opened MetadataInvariants
  import opened MetadataRuns

  // ---------------------------------------------------------------- what never comes back

  predicate StageSettled(status: StageStatus) {
    !StageOpen(status)
  }

  /** A job keeps its identity and its settled stages, its priority number never rises, and once
      it is terminal nothing about it changes. */
  ghost predicate JobEvolves(a: Job, b: Job) {
    && SameIdentity(a, b)
    && (!Active(a) ==> b == a)
    && b.priority <= a.priority
    && (forall s :: s in a.stages && StageSettled(a.stages[s]) ==> s in b.stages && b.stages[s] == a.stages[s])
  }

  ghost predicate JobsEvolve(jobs: map<Uuid, Job>, jobs': map<Uuid, Job>) {
    forall id :: id in jobs ==> id in jobs' && JobEvolves(jobs[id], jobs'[id])
  }

  /** A movie keeps its number and never leaves `CoreReady`. */
  ghost predicate MoviesEvolve(movies: map<Uuid, Movie>, movies': map<Uuid, Movie>) {
    forall m :: m in movies ==>
      m in movies' && movies'[m].number == movies[m].number && (movies[m].state == CoreReady ==> movies'[m].state == CoreReady)
  }

  ghost predicate Evolves(db: Db, db': Db) {
    JobsEvolve(db.jobs, db'.jobs) && MoviesEvolve(db.movies, db'.movies) && db.issued <= db'.issued && db.now <= db'.now
  }

  lemma EvolvesTransitively(a: Db, b: Db, c: Db)
    requires Evolves(a, b) && Evolves(b, c)
    ensures Evolves(a, c)
  {
    forall id | id in a.jobs ensures JobEvolves(a.jobs[id], c.jobs[id]) {
      assert JobEvolves(a.jobs[id], b.jobs[id]) && JobEvolves(b.jobs[id], c.jobs[id]);
    }
  }

  lemma NothingEvolves(db: Db)
    ensures Evolves(db, db)
  {
  }

  lemma AdditionEvolves(db: Db, id: Uuid, job: Job)
    requires id !in db.jobs && job.movie in db.movies
    ensures Evolves(db, AddJob(db, id, job))
  {
  }

  lemma PromotionEvolves(db: Db, id: Uuid, reason: Reason, sortDate: Option<int>)
    requires Inv(db) && id in db.jobs && db.jobs[id].status == Queued
    requires reason == ManualOrSearch || PriorityFor(reason) <= db.jobs[id].priority
    ensures Evolves(db, db.(jobs := db.jobs[id := Promoted(db.jobs[id], reason, sortDate)]))
  {
    hide Inv;
    RowFacts(db, id);
  }

  lemma EnsureSearchEvolves(db: Db, movie: Uuid, number: string, sortDate: Option<int>, id: Uuid)
    requires Inv(db) && id !in db.jobs
    ensures Evolves(db, EnsureSearch(db, movie, number, sortDate, id).0)
  {
    hide Inv, Evolves, AddJob, Promoted;
    NothingEvolves(db);
    if movie in db.movies && db.movies[movie].number == number {
      LatestMeaning(db.jobs, number);
      match Latest(db.jobs, number)
      case None =>
        AdditionEvolves(db, id, NewJob(db.now, movie, number, ManualOrSearch, sortDate, Full, [], 1, None));
      case Some(latest) =>
        if db.jobs[latest].status == Queued {
          PromotionEvolves(db, latest, ManualOrSearch, sortDate);
        }
    }
  }

  lemma EnsureRankingEvolves(db: Db, movie: Uuid, number: string, sortDate: Option<int>, id: Uuid)
    requires Inv(db) && id !in db.jobs
    ensures Evolves(db, EnsureRanking(db, movie, number, sortDate, id).0)
  {
    hide Inv, Evolves, AddJob, Promoted;
    NothingEvolves(db);
    if movie in db.movies && db.movies[movie].number == number {
      LatestMeaning(db.jobs, number);
      match Latest(db.jobs, number)
      case None =>
        AdditionEvolves(db, id, NewJob(db.now, movie, number, Ranking, sortDate, Full, [], 1, None));
      case Some(latest) =>
        if db.jobs[latest].status == Queued && db.jobs[latest].priority > PriorityFor(Ranking) {
          PromotionEvolves(db, latest, Ranking, sortDate);
        }
    }
  }

  lemma RescrapeEvolves(db: Db, movie: Uuid, id: Uuid)
    requires Inv(db) && id !in db.jobs
    ensures Evolves(db, Rescrape(db, movie, id).0)
  {
    hide Inv, Evolves, AddJob, Promoted;
    NothingEvolves(db);
    if movie in db.movies {
      var number := db.movies[movie].number;
      LatestMeaning(db.jobs, number);
      match Latest(db.jobs, number)
      case None =>
        AdditionEvolves(db, id, NewJob(db.now, movie, number, ManualOrSearch, None, Full, [], 1, None));
      case Some(latest) =>
        var job := db.jobs[latest];
        if job.status == Queued {
          PromotionEvolves(db, latest, ManualOrSearch, None);
        }
        AdditionEvolves(db, id, NewJob(db.now, movie, number, ManualOrSearch, job.sortDate, Full, [],
                                       job.attemptNo + 1, Some(latest)));
    }
  }

  lemma EnqueueEvolves(db: Db, movie: Uuid, number: string, sortDate: Option<int>, reason: Reason, id: Uuid)
    requires id !in db.jobs
    ensures Evolves(db, Enqueue(db, movie, number, sortDate, reason, id).0)
  {
    hide Evolves, AddJob;
    NothingEvolves(db);
    if movie in db.movies {
      AdditionEvolves(db, id, NewJob(db.now, movie, number, reason, sortDate, Full, [], 1, None));
    }
  }

  lemma RetryEvolves(db: Db, parent: Uuid, stages: seq<Stage>, id: Uuid)
    requires id !in db.jobs
    ensures Evolves(db, ManualRetry(db, parent, id).0)
    ensures Evolves(db, RetryEnrichment(db, parent, stages, id).0)
  {
    hide Evolves, AddJob, Retryable, ValidateEnrichment;
    NothingEvolves(db);
    if parent in db.jobs && db.jobs[parent].movie in db.movies {
      var p, n := db.jobs[parent], NextAttempt(db.jobs, db.jobs[parent].number);
      AdditionEvolves(db, id, NewJob(db.now, p.movie, p.number, ManualOrSearch, p.sortDate, Full, [], n, Some(parent)));
      if ValidateEnrichment(stages).Some? {
        AdditionEvolves(db, id, NewJob(db.now, p.movie, p.number, ManualOrSearch, p.sortDate, MissingEnrichment,
                                       ValidateEnrichment(stages).value, n, Some(parent)));
      }
    }
  }

  lemma ClaimEvolves(db: Db, lease: int, owner: Uuid)
    requires Inv(db)
    ensures Evolves(db, ClaimNext(db, lease, owner).0)
  {
    hide Inv, RowShape;
  }

  lemma ClaimWorkEvolves(db: Db, a: Action)
    requires Inv(db) && Allowed(db, a) && (a.DoRenew? || a.DoExpire? || a.DoImportCore?)
    ensures Evolves(db, Step(db, a))
  {
    hide Inv;
  }

  lemma StageWorkEvolves(db: Db, a: Action)
    requires Inv(db) && Allowed(db, a) && (a.DoStartStage? || a.DoFinishStage?)
    ensures Evolves(db, Step(db, a))
  {
    hide Inv;
  }

  lemma EndWorkEvolves(db: Db, a: Action)
    requires Inv(db) && Allowed(db, a) && (a.DoComplete? || a.DoFail?)
    ensures Evolves(db, Step(db, a))
  {
    hide Inv, AnyOpen, AnyWarned;
  }

  lemma StepEvolves(db: Db, a: Action)
    requires Inv(db) && Allowed(db, a)
    ensures Evolves(db, Step(db, a))
  {
    hide Inv;
    match a
    case DoEnqueue(movie, number, sortDate, reason, id) => EnqueueEvolves(db, movie, number, sortDate, reason, id);
    case DoManualRetry(parent, id) => RetryEvolves(db, parent, [], id);
    case DoRetryEnrichment(parent, stages, id) => RetryEvolves(db, parent, stages, id);
    case DoEnsureSearch(movie, number, sortDate, id) => EnsureSearchEvolves(db, movie, number, sortDate, id);
    case DoEnsureRanking(movie, number, sortDate, id) => EnsureRankingEvolves(db, movie, number, sortDate, id);
    case DoRescrape(movie, id) => RescrapeEvolves(db, movie, id);
    case DoClaimNext(lease, owner) => ClaimEvolves(db, lease, owner);
    case DoAddMovie(_, _) =>
    case DoSetPaused(_) =>
    case DoTick(_) =>
    case DoStartStage(_, _) => StageWorkEvolves(db, a);
    case DoFinishStage(_, _, _) => StageWorkEvolves(db, a);
    case DoComplete(_, _) => EndWorkEvolves(db, a);
    case DoFail(_, _, _, _) => EndWorkEvolves(db, a);
    case _ => ClaimWorkEvolves(db, a);
  }

  /** Over any run: attempts keep their number and lineage, terminal jobs and settled stages are
      final, priorities only improve, and a movie that reached its core never leaves it. */
  lemma {:induction false} RunEvolves(db: Db, actions: seq<Action>)
    requires Inv(db) && AllowedRun(db, actions)
    ensures Evolves(db, Run(db, actions))
    decreases |actions|
  {
    hide Inv;
    if actions != [] {
      StepEvolves(db, actions[0]);
      StepKeepsInv(db, actions[0]);
      RunEvolves(Step(db, actions[0]), actions[1..]);
      EvolvesTransitively(db, Step(db, actions[0]), Run(db, actions));
    }
  }

  // ---------------------------------------------------------------- fencing

  /** The claim an action is made under, if it needs one. */
  function TicketOf(a: Action): Option<Ticket> {
    match a
    case DoRenew(t, _) => Some(t)
    case DoExpire(t) => Some(t)
    case DoStartStage(t, _) => Some(t)
    case DoFinishStage(t, _, _) => Some(t)
    case DoComplete(t, _) => Some(t)
    case DoFail(t, _, _, _) => Some(t)
    case DoImportCore(t, _, _, _) => Some(t)
    case _ => None
  }

  /** A claim that was drawn but is no longer the one on its job. */
  predicate Stale(db: Db, t: Ticket) {
    t.owner in db.issued && !Held(db, t)
  }

  lemma StaleActionChangesNothing(db: Db, a: Action)
    requires Allowed(db, a) && TicketOf(a).Some? && !Held(db, TicketOf(a).value)
    ensures Step(db, a) == db
  {
  }

  lemma StaleStaysStale(db: Db, a: Action, t: Ticket)
    requires Inv(db) && Allowed(db, a) && Stale(db, t)
    ensures Stale(Step(db, a), t)
  {
    hide Inv, RowShape, Retryable, ValidateEnrichment, AnyOpen, AnyWarned;
  }

  /** Fencing: once a worker's claim has been lost, nothing it does under that claim, at any later
      time and after any other activity, changes the database. */
  lemma {:induction false} LostClaimIsFenced(db: Db, actions: seq<Action>, late: Action)
    requires Inv(db) && AllowedRun(db, actions) && Allowed(Run(db, actions), late)
    requires TicketOf(late).Some? && Stale(db, TicketOf(late).value)
    ensures Step(Run(db, actions), late) == Run(db, actions)
    decreases |actions|
  {
    hide Inv;
    if actions == [] {
      StaleActionChangesNothing(db, late);
    } else {
      StaleStaysStale(db, actions[0], TicketOf(late).value);
      StepKeepsInv(db, actions[0]);
      LostClaimIsFenced(Step(db, actions[0]), actions[1..], late);
    }
  }

  /** The transactions that end a claim: its own completion or failure, or a reclaim of its job. */
  ghost predicate EndsClaim(db: Db, a: Action, t: Ticket)
    requires Allowed(db, a)
  {
    match a
    case DoComplete(u, withWarnings) => u == t && Complete(db, u, withWarnings).1 == Done
    case DoFail(u, code, requireUnexpired, victim) => u == t && Fail(db, u, code, requireUnexpired, victim).1 == Done
    case DoClaimNext(lease, owner) =>
      var reply := ClaimNext(db, lease, owner).1;
      reply.Claimed? && reply.ticket.job == t.job
    case _ => false
  }

  /** A held claim is lost exactly by those transactions, and is stale from then on. */
  lemma ClaimEndsExactly(db: Db, a: Action, t: Ticket)
    requires Inv(db) && Allowed(db, a) && Held(db, t)
    ensures EndsClaim(db, a, t) <==> !Held(Step(db, a), t)
    ensures EndsClaim(db, a, t) ==> Stale(Step(db, a), t)
  {
    hide Inv, Held, Stale, EndsClaim, Step;
    if EndsWork(a) {
      ClaimEndsAtEnd(db, a, t);
    } else {
      ClaimLasts(db, a, t);
    }
  }

  predicate EndsWork(a: Action) {
    a.DoComplete? || a.DoFail? || a.DoClaimNext?
  }

  lemma ClaimEndsAtEnd(db: Db, a: Action, t: Ticket)
    requires Inv(db) && Allowed(db, a) && Held(db, t) && EndsWork(a)
    ensures EndsClaim(db, a, t) <==> !Held(Step(db, a), t)
    ensures EndsClaim(db, a, t) ==> Stale(Step(db, a), t)
  {
    hide AttemptHistory, MoviesMatch, CatalogFollowsJobs, CoreBehindJobs, Rows, Slots, RowShape, Retryable,
         ValidateEnrichment, AnyOpen, AnyWarned;
  }

  lemma ClaimLasts(db: Db, a: Action, t: Ticket)
    requires Inv(db) && Allowed(db, a) && Held(db, t) && !EndsWork(a)
    ensures !EndsClaim(db, a, t) && Held(Step(db, a), t)
  {
    hide AttemptHistory, MoviesMatch, CatalogFollowsJobs, CoreBehindJobs, Rows, Slots, RowShape, Retryable,
         ValidateEnrichment, AnyOpen, AnyWarned, ClaimNext, Complete, Fail;
  }

  // ---------------------------------------------------------------- which job a claim takes

  /** The claim order is total and transitive. */
  lemma ClaimOrder(a: Job, aId: Uuid, b: Job, bId: Uuid, c: Job, cId: Uuid)
    ensures ClaimsBefore(a, aId, b, bId) && ClaimsBefore(b, bId, c, cId) ==> ClaimsBefore(a, aId, c, cId)
    ensures aId != bId ==> (ClaimsBefore(a, aId, b, bId) <==> !ClaimsBefore(b, bId, a, aId))
    ensures !ClaimsBefore(a, aId, a, aId)
  {
  }

  lemma {:induction false} LeastOf(jobs: map<Uuid, Job>, ids: set<Uuid>) returns (least: Uuid)
    requires ids != {} && ids <= jobs.Keys
    ensures least in ids
    ensures forall k :: k in ids && k != least ==> ClaimsBefore(jobs[least], least, jobs[k], k)
  {
    var id :| id in ids;
    if ids == {id} {
      least := id;
    } else {
      var rest := LeastOf(jobs, ids - {id});
      least := if ClaimsBefore(jobs[id], id, jobs[rest], rest) then id else rest;
      forall k | k in ids && k != least ensures ClaimsBefore(jobs[least], least, jobs[k], k) {
        ClaimOrder(jobs[id], id, jobs[rest], rest, jobs[k], k);
      }
    }
  }

  /** A claim succeeds exactly when the queue is not paused, a slot is free and some job is queued
      or expired; it takes the first such job, and adds it to the live ones. */
  lemma ClaimTakesLeast(db: Db, lease: int, owner: Uuid)
    requires Inv(db) && lease > 0
    ensures var (db', reply) := ClaimNext(db, lease, owner);
            && (reply.Claimed? <==> !db.paused && |Live(db.jobs, db.now)| < 3
                                    && exists id :: Claimable(db.jobs, db.now, id))
            && (reply.Claimed? ==>
                  && IsLeastClaimable(db.jobs, db.now, reply.ticket.job)
                  && Live(db'.jobs, db'.now) == Live(db.jobs, db.now) + {reply.ticket.job}
                  && HeldNow(db', reply.ticket))
  {
    hide AttemptHistory, CatalogFollowsJobs, CoreBehindJobs, Rows, Owners, Slots, AnyWarned;
    if id :| Claimable(db.jobs, db.now, id) {
      var ids := set k | k in db.jobs && Claimable(db.jobs, db.now, k);
      assert id in ids;
      var least := LeastOf(db.jobs, ids);
      assert IsLeastClaimable(db.jobs, db.now, least);
    }
  }

  /** What a claim announces: exactly the stages still to be done, in plan order. */
  lemma {:induction false} PendingStages(stages: StageTable, wanted: StageStatus, order: seq<Stage>)
    ensures var found := StagesIn(stages, wanted, order);
            && (forall s :: s in found <==> s in order && s in stages && stages[s] == wanted)
            && |found| <= |order|
  {
    if order != [] {
      PendingStages(stages, wanted, order[1..]);
    }
  }

  /** Asking for a movie to be found: once it has its core the answer is "completed"; before that it
      is the state of the number's newest attempt, which is running, failed, or queued with at
      least the priority that was asked for. */
  lemma SearchReportsNewest(db: Db, movie: Uuid, number: string, sortDate: Option<int>, id: Uuid)
    requires Inv(db) && id !in db.jobs && movie in db.movies && db.movies[movie].number == number
    ensures var (db', reply) := EnsureSearch(db, movie, number, sortDate, id);
            ReportsNewest(db', movie, number, reply, PriorityFor(ManualOrSearch))
  {
    hide Inv, RowShape;
    EnsureSearchKeepsInv(db, movie, number, sortDate, id);
    if db.movies[movie].state == CoreReady {
      CoreHasJob(db, movie);
    }
    LatestMeaning(db.jobs, number);
    var db' := EnsureSearch(db, movie, number, sortDate, id).0;
    NewestIsReported(db', movie, if Latest(db.jobs, number) == None then id else Latest(db.jobs, number).value);
  }

  lemma RankingReportsNewest(db: Db, movie: Uuid, number: string, sortDate: Option<int>, id: Uuid)
    requires Inv(db) && id !in db.jobs && movie in db.movies && db.movies[movie].number == number
    ensures var (db', reply) := EnsureRanking(db, movie, number, sortDate, id);
            ReportsNewest(db', movie, number, reply, PriorityFor(Ranking))
  {
    hide Inv, RowShape;
    EnsureRankingKeepsInv(db, movie, number, sortDate, id);
    if db.movies[movie].state == CoreReady {
      CoreHasJob(db, movie);
    }
    LatestMeaning(db.jobs, number);
    var db' := EnsureRanking(db, movie, number, sortDate, id).0;
    NewestIsReported(db', movie, if Latest(db.jobs, number) == None then id else Latest(db.jobs, number).value);
  }

  lemma CoreHasJob(db: Db, movie: Uuid)
    requires Inv(db) && movie in db.movies && db.movies[movie].state == CoreReady
    ensures Latest(db.jobs, db.movies[movie].number).Some?
  {
  }

  ghost predicate ReportsNewest(db: Db, movie: Uuid, number: string, reply: Reply, priority: int)
  {
    && reply.JobState? && movie in db.movies
    && Latest(db.jobs, number) == Some(reply.id) && reply.id in db.jobs
    && (if db.movies[movie].state == CoreReady then reply.state == Completed
        else reply.state == db.jobs[reply.id].status && (reply.state == Queued ==> db.jobs[reply.id].priority <= priority))
  }

  lemma NewestIsReported(db: Db, movie: Uuid, newest: Uuid)
    requires Inv(db) && movie in db.movies
    requires newest in db.jobs && db.jobs[newest].number == db.movies[movie].number
    requires forall k :: k in db.jobs && db.jobs[k].number == db.movies[movie].number ==> db.jobs[k].attemptNo <= db.jobs[newest].attemptNo
    ensures Latest(db.jobs, db.movies[movie].number) == Some(newest)
    ensures db.movies[movie].state != CoreReady ==>
              db.jobs[newest].status != Completed && db.jobs[newest].status != CompletedWithWarnings
  {
    LatestIs(db.jobs, db.movies[movie].number, newest);
  }

  // ---------------------------------------------------------------- retryable stages

  /** The k-th ancestor of a job; the job itself is its ancestor 0. */
  function AncestorAt(jobs: map<Uuid, Job>, id: Uuid, k: nat): Option<Uuid>
    decreases k
  {
    if id !in jobs then None
    else if k == 0 then Some(id)
    else if jobs[id].parent == None then None
    else AncestorAt(jobs, jobs[id].parent.value, k - 1)
  }

  predicate Skipped(jobs: map<Uuid, Job>, id: Uuid, stage: Stage)
    requires id in jobs
  {
    stage !in jobs[id].stages || jobs[id].stages[stage] == StageSkipped
  }

  /** The k-th ancestor is the nearest one that did not skip the stage. */
  ghost predicate NearestDoer(jobs: map<Uuid, Job>, id: Uuid, stage: Stage, k: nat) {
    && (forall i: nat :: i <= k ==> AncestorAt(jobs, id, i).Some? && AncestorAt(jobs, id, i).value in jobs)
    && (forall i: nat :: i < k ==> Skipped(jobs, AncestorAt(jobs, id, i).value, stage))
    && !Skipped(jobs, AncestorAt(jobs, id, k).value, stage)
  }

  ghost predicate NearestDid(jobs: map<Uuid, Job>, id: Uuid, stage: Stage, status: StageStatus, k: nat) {
    NearestDoer(jobs, id, stage, k) && jobs[AncestorAt(jobs, id, k).value].stages[stage] == status
  }

  lemma WalkStops(jobs: map<Uuid, Job>, id: Uuid, stage: Stage, status: StageStatus)
    requires id in jobs && (!Skipped(jobs, id, stage) || jobs[id].parent == None)
    ensures (exists k: nat :: NearestDid(jobs, id, stage, status, k)) <==>
              !Skipped(jobs, id, stage) && jobs[id].stages[stage] == status
  {
    assert AncestorAt(jobs, id, 0) == Some(id);
    if !Skipped(jobs, id, stage) {
      if jobs[id].stages[stage] == status {
        assert NearestDid(jobs, id, stage, status, 0);
      }
      forall k: nat | NearestDid(jobs, id, stage, status, k) ensures k == 0 {
      }
    } else {
      forall k: nat ensures !NearestDid(jobs, id, stage, status, k) {
        assert k > 0 ==> AncestorAt(jobs, id, k) == None;
      }
    }
  }

  /** The walk with its visited set, from a job whose visited set holds later attempts only. */
  lemma {:induction false} WalkFindsNearest(jobs: map<Uuid, Job>, id: Uuid, visited: set<Uuid>, stage: Stage, status: StageStatus)
    requires Lineage(jobs) && id in jobs
    requires forall v :: v in visited ==> v in jobs && Precedes(jobs[id], jobs[v])
    ensures LatestNonSkipped(jobs, Some(id), visited, stage) == Some(status) <==>
            exists k: nat :: NearestDid(jobs, id, stage, status, k)
    decreases jobs[id].attemptNo
  {
    hide NearestDid, NearestDoer;
    if !Skipped(jobs, id, stage) || jobs[id].parent == None {
      WalkStops(jobs, id, stage, status);
    } else {
      var p := jobs[id].parent.value;
      WalkFindsNearest(jobs, p, visited + {id}, stage, status);
      NearestDidShift(jobs, id, stage, status);
    }
  }

  lemma NearestDidShift(jobs: map<Uuid, Job>, id: Uuid, stage: Stage, status: StageStatus)
    requires Lineage(jobs) && id in jobs && jobs[id].parent.Some? && Skipped(jobs, id, stage)
    ensures (exists k: nat :: NearestDid(jobs, id, stage, status, k)) <==>
            (exists k: nat :: NearestDid(jobs, jobs[id].parent.value, stage, status, k))
  {
    var p := jobs[id].parent.value;
    NearestDoerShift(jobs, id, stage);
    if k: nat :| NearestDid(jobs, id, stage, status, k) {
      assert AncestorAt(jobs, id, k) == AncestorAt(jobs, p, k - 1);
      assert NearestDoer(jobs, id, stage, (k - 1) + 1);
      assert NearestDid(jobs, p, stage, status, k - 1);
    }
    if k: nat :| NearestDid(jobs, p, stage, status, k) {
      assert AncestorAt(jobs, id, k + 1) == AncestorAt(jobs, p, k);
      assert NearestDid(jobs, id, stage, status, k + 1);
    }
  }

  lemma NearestDoerShift(jobs: map<Uuid, Job>, id: Uuid, stage: Stage)
    requires Lineage(jobs) && id in jobs && jobs[id].parent.Some? && Skipped(jobs, id, stage)
    ensures forall k: nat :: NearestDoer(jobs, id, stage, k) ==> k > 0
    ensures forall k: nat :: NearestDoer(jobs, id, stage, k + 1) <==> NearestDoer(jobs, jobs[id].parent.value, stage, k)
  {
    var p := jobs[id].parent.value;
    assert AncestorAt(jobs, id, 0) == Some(id);
    assert forall k: nat :: AncestorAt(jobs, id, k + 1) == AncestorAt(jobs, p, k);
    forall k: nat ensures NearestDoer(jobs, id, stage, k + 1) <==> NearestDoer(jobs, p, stage, k) {
      if NearestDoer(jobs, p, stage, k) {
        forall i: nat | i <= k + 1 ensures AncestorAt(jobs, id, i).Some? && AncestorAt(jobs, id, i).value in jobs {
          assert i > 0 ==> AncestorAt(jobs, id, i) == AncestorAt(jobs, p, i - 1);
        }
        forall i: nat | i < k + 1 ensures Skipped(jobs, AncestorAt(jobs, id, i).value, stage) {
          assert i > 0 ==> AncestorAt(jobs, id, i) == AncestorAt(jobs, p, i - 1);
        }
      }
    }
  }

  /** A stage may be retried exactly when it is not the core, the job completed with warnings or failed
      as a full attempt after its core had been imported, and the nearest attempt, itself or an
      ancestor, that did not skip the stage left it warned, failed or pending. So a failed enrichment
      attempt offers nothing to retry. */
  lemma RetryableExactly(db: Db, id: Uuid, stage: Stage)
    requires Inv(db) && id in db.jobs
    ensures var job := db.jobs[id];
            Retryable(db, id, stage) <==>
              && stage != JavdbCore
              && (|| job.status == CompletedWithWarnings
                  || (&& job.status == Failed && job.retryMode == Full && job.stages[JavdbCore] == StageSucceeded
                      && db.movies[job.movie].state == CoreReady))
              && exists k: nat, status :: NearestDid(db.jobs, id, stage, status, k)
                                          && (StageWarned(status) || status == StagePending)
  {
    hide Attempts, OldAttemptsTerminal, MoviesMatch, CatalogFollowsJobs, CoreBehindJobs, Rows, Owners, Slots, LatestNonSkipped;
    RowFacts(db, id);
    OptionalStages(stage);
    WalkFindsNearest(db.jobs, id, {}, stage, StageWarning);
    WalkFindsNearest(db.jobs, id, {}, stage, StageFailed);
    WalkFindsNearest(db.jobs, id, {}, stage, StagePending);
  }

  // ---------------------------------------------------------------- a failed job's stages

  function RunningStages(stages: StageTable): set<Stage> {
    set s | s in stages && stages[s] == StageRunning
  }

  /** Failing a job closes one running stage only. No stage is left running exactly when at most
      one was running before, and a second running stage is not forbidden. */
  lemma FailClosesOneStage(db: Db, t: Ticket, code: string, requireUnexpired: bool, victim: Option<Stage>)
    requires Held(db, t) && IsVictim(db.jobs[t.job].stages, victim)
    requires Fail(db, t, code, requireUnexpired, victim).1 == Done
    ensures var before := RunningStages(db.jobs[t.job].stages);
            var after := RunningStages(Fail(db, t, code, requireUnexpired, victim).0.jobs[t.job].stages);
            && (after < before || before == {})
            && |after| == (if before == {} then 0 else |before| - 1)
            && (after == {} <==> |before| <= 1)
  {
    var before := RunningStages(db.jobs[t.job].stages);
    var after := RunningStages(Fail(db, t, code, requireUnexpired, victim).0.jobs[t.job].stages);
    match victim
    case Some(s) =>
      assert s in before && after == before - {s};
    case None =>
      assert before == {} && after == {};
  }

  // ---------------------------------------------------------------- reachable states, in the system's terms

  lemma EmptyIsSound()
    ensures Inv(EMPTY)
  {
    assert Live(EMPTY.jobs, EMPTY.now) == {};
  }

  /** In every reachable state: a movie has its core or its catalog state is the one its newest
      attempt calls for; enrichment-only jobs belong to movies with a core; a completed job has no
      open stage and carries the warning status exactly when some stage warned or failed; at most
      one job of a number is active; and at most three jobs hold an unexpired claim. */
  lemma ReachableStates(actions: seq<Action>)
    requires AllowedRun(EMPTY, actions)
    ensures var db := Run(EMPTY, actions);
            && (forall m :: m in db.movies ==>
                  db.movies[m].state == CoreReady || db.movies[m].state == DerivedState(db.jobs, db.movies[m].number))
            && (forall id :: id in db.jobs && db.jobs[id].retryMode == MissingEnrichment ==>
                  db.jobs[id].movie in db.movies && db.movies[db.jobs[id].movie].state == CoreReady)
            && (forall id :: id in db.jobs && (db.jobs[id].status == Completed || db.jobs[id].status == CompletedWithWarnings) ==>
                  !AnyOpen(db.jobs[id].stages) && (db.jobs[id].status == CompletedWithWarnings <==> AnyWarned(db.jobs[id].stages)))
            && (forall a, b :: a in db.jobs && b in db.jobs && BothActive(db.jobs[a], db.jobs[b]) ==> a == b)
            && |Live(db.jobs, db.now)| <= 3
  {
    EmptyIsSound();
    RunKeepsInv(EMPTY, actions);
    StateFacts(Run(EMPTY, actions));
  }

  predicate BothActive(a: Job, b: Job) {
    a.number == b.number && Active(a) && Active(b)
  }

  lemma StateFacts(db: Db)
    requires Inv(db)
    ensures forall id :: id in db.jobs && NeedsCore(db.jobs[id]) ==>
              db.jobs[id].movie in db.movies && db.movies[db.jobs[id].movie].state == CoreReady
    ensures forall id :: id in db.jobs ==> RowShape(db.jobs[id])
    ensures forall a, b :: a in db.jobs && b in db.jobs && BothActive(db.jobs[a], db.jobs[b]) ==> a == b
  {
    hide Attempts, OldAttemptsTerminal, RowShape;
    forall a, b | a in db.jobs && b in db.jobs && BothActive(db.jobs[a], db.jobs[b]) ensures a == b {
      AtMostOneActive(db, a, b);
    }
  }

  /** In every reachable state a number's attempts are exactly 1..k, where k is its newest one; each
      is carried by one job, and every one before another has ended. */
  lemma AttemptsAreContiguous(actions: seq<Action>, number: string, n: int)
    requires AllowedRun(EMPTY, actions)
    ensures var jobs := Run(EMPTY, actions).jobs;
            && (HasAttempt(jobs, number, n) <==>
                  Latest(jobs, number).Some? && 1 <= n <= jobs[Latest(jobs, number).value].attemptNo)
            && (forall a, b :: a in jobs && b in jobs && SameAttempt(jobs[a], jobs[b]) ==> a == b)
            && (forall a, b :: a in jobs && b in jobs && Precedes(jobs[a], jobs[b]) ==> !Active(jobs[a]))
  {
    hide Run;
    EmptyIsSound();
    RunKeepsInv(EMPTY, actions);
    hide HasAttempt, Lineage, MoviesMatch, CatalogFollowsJobs, CoreBehindJobs, Rows, Owners, Slots;
    NumbersAreContiguous(Run(EMPTY, actions).jobs, number, n);
  }

  lemma {:induction false} NumbersAreContiguous(jobs: map<Uuid, Job>, number: string, n: int)
    requires Attempts(jobs)
    ensures HasAttempt(jobs, number, n) <==>
            (Latest(jobs, number).Some? && 1 <= n <= jobs[Latest(jobs, number).value].attemptNo)
  {
    LatestMeaning(jobs, number);
    if Latest(jobs, number).Some? {
      var top := Latest(jobs, number).value;
      assert HasAttempt(jobs, number, jobs[top].attemptNo);
      if 1 <= n <= jobs[top].attemptNo {
        EarlierAttempt(jobs, number, jobs[top].attemptNo, n);
      }
    }
  }

  lemma {:induction false} EarlierAttempt(jobs: map<Uuid, Job>, number: string, k: int, n: int)
    requires Attempts(jobs) && HasAttempt(jobs, number, k) && 1 <= n <= k
    ensures HasAttempt(jobs, number, n)
    decreases k
  {
    if n < k {
      var id :| id in jobs && jobs[id].number == number && jobs[id].attemptNo == k;
      EarlierAttempt(jobs, number, k - 1, n);
    }
  }

  /** A worker that starts two stages and then fails leaves a failed job with a stage still marked
      running, and that stage cannot be retried afterwards. */
  lemma FailedJobMayKeepRunningStage(db: Db, t: Ticket, first: Stage, second: Stage, code: string)
    requires HeldNow(db, t) && first != second && second != JavdbCore
    requires RunningStages(db.jobs[t.job].stages) == {}
    requires first in db.jobs[t.job].stages && db.jobs[t.job].stages[first] == StagePending
    requires second in db.jobs[t.job].stages && db.jobs[t.job].stages[second] == StagePending
    ensures var started := StartStage(StartStage(db, t, first).0, t, second).0;
            var (failed, reply) := Fail(started, t, code, true, Some(first));
            && IsVictim(started.jobs[t.job].stages, Some(first)) && reply == Done
            && failed.jobs[t.job].status == Failed
            && RunningStages(failed.jobs[t.job].stages) == {second}
            && !Retryable(failed, t.job, second)
  {
    hide StartStage, Fail, Retryable, RunningStages;
    StartEffect(db, t, first);
    var one := StartStage(db, t, first).0;
    StartEffect(one, t, second);
    var two := StartStage(one, t, second).0;
    FailEffect(two, t, code, first);
    TwoStartedOneClosed(db.jobs[t.job].stages, first, second);
    RunningIsNotRetryable(Fail(two, t, code, true, Some(first)).0, t.job, second);
  }

  lemma FailEffect(db: Db, t: Ticket, code: string, victim: Stage)
    requires HeldNow(db, t)
    ensures var (db', reply) := Fail(db, t, code, true, Some(victim));
            && reply == Done && t.job in db'.jobs && db'.jobs[t.job].status == Failed
            && db'.jobs[t.job].stages == db.jobs[t.job].stages[victim := StageFailed]
  {
  }

  lemma RunningIsNotRetryable(db: Db, id: Uuid, stage: Stage)
    requires id in db.jobs && stage in db.jobs[id].stages && db.jobs[id].stages[stage] == StageRunning
    ensures !Retryable(db, id, stage)
  {
  }

  lemma StartEffect(db: Db, t: Ticket, stage: Stage)
    requires HeldNow(db, t) && stage in db.jobs[t.job].stages && db.jobs[t.job].stages[stage] == StagePending
    ensures var db' := StartStage(db, t, stage).0;
            HeldNow(db', t) && db'.jobs[t.job].stages == db.jobs[t.job].stages[stage := StageRunning]
  {
  }

  lemma TwoStartedOneClosed(stages: StageTable, first: Stage, second: Stage)
    requires first in stages && second in stages && first != second && RunningStages(stages) == {}
    ensures var after := stages[first := StageRunning][second := StageRunning][first := StageFailed];
            RunningStages(after) == {second} && after[second] == StageRunning
  {
    var after := stages[first := StageRunning][second := StageRunning][first := StageFailed];
    forall s | s in stages && s != second ensures s !in RunningStages(after) {
      assert s !in RunningStages(stages);
    }
  }

  const HELD := Ticket(1, 7)

  /** A number is enqueued and claimed, two of its stages are started, and the job fails. */
  const FAILING_RUN: seq<Action> := [
    DoAddMovie(0, "A"), DoEnqueue(0, "A", None, Daily, 1), DoClaimNext(60, 7),
    DoStartStage(HELD, Images), DoStartStage(HELD, Dmm), DoFail(HELD, "metadata_failed", true, Some(Images))]

  lemma ThenRun(db: Db, a: Action, rest: seq<Action>)
    requires Allowed(db, a) && AllowedRun(Step(db, a), rest)
    ensures AllowedRun(db, [a] + rest) && Run(db, [a] + rest) == Run(Step(db, a), rest)
  {
    assert ([a] + rest)[1..] == rest;
  }

  /** The first three steps lead to a held claim with every stage pending. */
  lemma ClaimedFromEmpty()
    ensures AllowedRun(EMPTY, FAILING_RUN[..3])
    ensures var db := Run(EMPTY, FAILING_RUN[..3]);
            HeldNow(db, HELD) && db.jobs[HELD.job].stages == StagePlan(Full, [])
  {
    hide Step, Allowed, Run, AllowedRun, HeldNow;
    ThreeSteps();
    var one := Step(EMPTY, FAILING_RUN[0]);
    var two := Step(one, FAILING_RUN[1]);
    var three := Step(two, FAILING_RUN[2]);
    assert FAILING_RUN[..3] == [FAILING_RUN[0]] + ([FAILING_RUN[1]] + ([FAILING_RUN[2]] + []));
    NoSteps(three);
    ThenRun(two, FAILING_RUN[2], []);
    ThenRun(one, FAILING_RUN[1], [FAILING_RUN[2]] + []);
    ThenRun(EMPTY, FAILING_RUN[0], [FAILING_RUN[1]] + ([FAILING_RUN[2]] + []));
  }

  lemma NoSteps(db: Db)
    ensures AllowedRun(db, []) && Run(db, []) == db
  {
  }

  lemma ThreeSteps()
    ensures Allowed(EMPTY, FAILING_RUN[0])
    ensures var one := Step(EMPTY, FAILING_RUN[0]);
            && Allowed(one, FAILING_RUN[1])
            && var two := Step(one, FAILING_RUN[1]);
            && Allowed(two, FAILING_RUN[2])
            && var three := Step(two, FAILING_RUN[2]);
            HeldNow(three, HELD) && three.jobs[HELD.job].stages == StagePlan(Full, [])
  {
    var two := Step(Step(EMPTY, FAILING_RUN[0]), FAILING_RUN[1]);
    assert two.jobs == map[1 := NewJob(0, 0, "A", Daily, None, Full, [], 1, None)];
    assert IsLeastClaimable(two.jobs, 0, 1) && Live(two.jobs, 0) == {};
    assert Step(two, FAILING_RUN[2]).jobs == map[1 := ClaimedRow(two.jobs[1], 7, 0, 60)];
  }

  /** From the empty database, step by step, to a failed job that keeps a running stage. */
  lemma RunningStageOutlivesItsJob()
    ensures AllowedRun(EMPTY, FAILING_RUN)
    ensures var db := Run(EMPTY, FAILING_RUN);
            && HELD.job in db.jobs && db.jobs[HELD.job].status == Failed
            && RunningStages(db.jobs[HELD.job].stages) == {Dmm} && !Retryable(db, HELD.job, Dmm)
  {
    ClaimedFromEmpty();
    var db := Run(EMPTY, FAILING_RUN[..3]);
    hide Run, AllowedRun, HeldNow;
    assert RunningStages(StagePlan(Full, [])) == {};
    FailedJobMayKeepRunningStage(db, HELD, Images, Dmm, "metadata_failed");
    LastThree(db);
    assert FAILING_RUN == FAILING_RUN[..3] + FAILING_RUN[3..];
    RunOn(EMPTY, FAILING_RUN[..3], FAILING_RUN[3..]);
  }

  lemma LastThree(db: Db)
    requires HeldNow(db, HELD) && db.jobs[HELD.job].stages == StagePlan(Full, [])
    ensures AllowedRun(db, FAILING_RUN[3..])
    ensures Run(db, FAILING_RUN[3..]) ==
              Fail(StartStage(StartStage(db, HELD, Images).0, HELD, Dmm).0, HELD, "metadata_failed", true, Some(Images)).0
  {
    hide StartStage, Fail;
    StartEffect(db, HELD, Images);
    var one := StartStage(db, HELD, Images).0;
    StartEffect(one, HELD, Dmm);
    var two := StartStage(one, HELD, Dmm).0;
    assert FAILING_RUN[3..] == [FAILING_RUN[3]] + ([FAILING_RUN[4]] + ([FAILING_RUN[5]] + []));
    ThenRun(two, FAILING_RUN[5], []);
    ThenRun(one, FAILING_RUN[4], [FAILING_RUN[5]] + []);
    ThenRun(db, FAILING_RUN[3], [FAILING_RUN[4]] + ([FAILING_RUN[5]] + []));
  }

  lemma {:induction false} RunOn(db: Db, first: seq<Action>, second: seq<Action>)
    requires AllowedRun(db, first) && AllowedRun(Run(db, first), second)
    ensures AllowedRun(db, first + second) && Run(db, first + second) == Run(Run(db, first), second)
    decreases |first|
  {
    hide Step, Allowed;
    if first == [] {
      assert first + second == second;
    } else {
      assert (first + second)[1..] == first[1..] + second;
      RunOn(Step(db, first[0]), first[1..], second);
    }
  }
}
