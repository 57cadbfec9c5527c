/** The queue over its mutable tables. Every method keeps the invariant and moves the tables
    exactly as the corresponding transition does. */
module MetadataQueueService {
  import opened Wrappers
  import opened MetadataModel
  import opened MetadataInvariants
  import opened MetadataRuns
  import MetadataProperties
  import Spec = MetadataModel

  class MetadataQueue {
    var movies: map<Uuid, Movie>
    var jobs: map<Uuid, Job>
    var paused: bool
    ghost var issued: set<Uuid>

    ghost function Contents(now: int): Db
      reads this
    {
      Db(movies, jobs, paused, issued, now)
    }

    ghost predicate Sound(now: int)
      reads this
    {
      Inv(Contents(now))
    }

    constructor ()
      ensures Contents(0) == EMPTY && Sound(0)
    {
      movies, jobs, paused, issued := map[], map[], false, {};
      new;
      MetadataProperties.EmptyIsSound();
    }

    // ------------------------------------------------------------ queries

    static lemma HeldAlone(db: Db, t: Ticket)
      requires Inv(db) && HeldNow(db, t)
      ensures forall u :: HeldNow(db, u) && (u.job == t.job || u.owner == t.owner) ==> u == t
      ensures forall id :: id in db.jobs && db.jobs[id].number == db.jobs[t.job].number && Active(db.jobs[id]) ==> id == t.job
    {
      hide RowShape, Attempts, OldAttemptsTerminal;
      forall u | HeldNow(db, u) && u.owner == t.owner ensures u == t {
        assert SameOwner(db.jobs[u.job], db.jobs[t.job]);
      }
      forall id | id in db.jobs && db.jobs[id].number == db.jobs[t.job].number && Active(db.jobs[id]) ensures id == t.job {
        AtMostOneActive(db, id, t.job);
      }
    }

    static lemma AttemptsOf(db: Db)
      requires Inv(db)
      ensures Attempts(db.jobs)
    {
    }

    /** The newest attempt of a number. */
    method LatestOf(number: string) returns (latest: Option<Uuid>)
      requires Attempts(jobs)
      ensures latest == Latest(jobs, number)
    {
      if id :| id in jobs && IsLatest(jobs, number, id) {
        LatestIs(jobs, number, id);
        latest := Some(id);
      } else {
        latest := None;
      }
    }

    /** The row the claim query returns first. */
    method FirstClaimable(now: int) returns (first: Option<Uuid>)
      ensures first == None <==> forall id :: !Claimable(jobs, now, id)
      ensures first.Some? ==> IsLeastClaimable(jobs, now, first.value)
      ensures first.Some? ==> forall k :: IsLeastClaimable(jobs, now, k) ==> k == first.value
    {
      ghost var ids := set k | k in jobs && Claimable(jobs, now, k);
      if ids != {} {
        ghost var least := MetadataProperties.LeastOf(jobs, ids);
        assert IsLeastClaimable(jobs, now, least);
      }
      if id :| id in jobs && IsLeastClaimable(jobs, now, id) {
        forall k | IsLeastClaimable(jobs, now, k) ensures k == id {
          MetadataProperties.ClaimOrder(jobs[id], id, jobs[k], k, jobs[id], id);
        }
        first := Some(id);
      } else {
        assert forall k :: Claimable(jobs, now, k) ==> k in ids;
        first := None;
      }
    }

    /** The ancestor walk of the enrichment retry. */
    method LatestNonSkippedStatus(id: Uuid, stage: Stage) returns (status: Option<StageStatus>)
      ensures status == LatestNonSkipped(jobs, Some(id), {}, stage)
    {
      var current := Some(id);
      var visited := {};
      while current.Some? && current.value !in visited && current.value in jobs
        invariant LatestNonSkipped(jobs, current, visited, stage) == LatestNonSkipped(jobs, Some(id), {}, stage)
        decreases jobs.Keys - visited
      {
        var job := jobs[current.value];
        visited := visited + {current.value};
        if stage in job.stages && job.stages[stage] != StageSkipped {
          return Some(job.stages[stage]);
        }
        current := job.parent;
      }
      status := None;
    }

    method RetryableStages(now: int, id: Uuid) returns (stages: seq<Stage>)
      requires id in jobs
      ensures forall s :: s in stages <==> Retryable(Contents(now), id, s)
    {
      stages := [];
      var job := jobs[id];
      if job.status == CompletedWithWarnings {
      } else if job.status == Failed && job.movie in movies && movies[job.movie].state == CoreReady {
        if JavdbCore !in job.stages || job.stages[JavdbCore] != StageSucceeded {
          return [];
        }
      } else {
        return [];
      }
      for i := 0 to |OPTIONAL_STAGES|
        invariant forall s :: s in stages <==> s in OPTIONAL_STAGES[..i] && Retryable(Contents(now), id, s)
      {
        var status := LatestNonSkippedStatus(id, OPTIONAL_STAGES[i]);
        if status.Some? && (StageWarned(status.value) || status.value == StagePending) {
          stages := stages + [OPTIONAL_STAGES[i]];
        }
        assert OPTIONAL_STAGES[..i + 1] == OPTIONAL_STAGES[..i] + [OPTIONAL_STAGES[i]];
      }
      assert OPTIONAL_STAGES[..|OPTIONAL_STAGES|] == OPTIONAL_STAGES;
    }

    // ------------------------------------------------------------ enqueueing

    method InsertJob(id: Uuid, job: Job)
      requires job.movie in movies
      modifies this`jobs, this`movies
      ensures forall now :: Contents(now) == AddJob(old(Contents(now)), id, job)
    {
      jobs := jobs[id := job];
      if movies[job.movie].state != CoreReady {
        movies := movies[job.movie := movies[job.movie].(state := MetadataQueued)];
      }
    }

    method Enqueue(now: int, movie: Uuid, number: string, sortDate: Option<int>, reason: Reason, id: Uuid) returns (reply: Reply)
      requires Sound(now) && id !in jobs
      modifies this
      ensures Sound(now) && (Contents(now), reply) == Spec.Enqueue(old(Contents(now)), movie, number, sortDate, reason, id)
    {
      hide Inv, Attempts, RowShape;
      AttemptsOf(Contents(now));
      EnqueueKeepsInv(Contents(now), movie, number, sortDate, reason, id);
      if movie !in movies || movies[movie].number != number {
        return Refused(ResourceNotFound);
      }
      var existing := LatestOf(number);
      if existing.Some? {
        return Enqueued(existing.value, false);
      }
      InsertJob(id, NewJob(now, movie, number, reason, sortDate, Full, [], 1, None));
      return Enqueued(id, true);
    }

    method EnsureSearchPriority(now: int, movie: Uuid, number: string, sortDate: Option<int>, id: Uuid) returns (reply: Reply)
      requires Sound(now) && id !in jobs
      modifies this
      ensures Sound(now) && (Contents(now), reply) == EnsureSearch(old(Contents(now)), movie, number, sortDate, id)
    {
      hide Inv, Attempts, RowShape;
      AttemptsOf(Contents(now));
      EnsureSearchKeepsInv(Contents(now), movie, number, sortDate, id);
      if movie !in movies || movies[movie].number != number {
        return Refused(ResourceNotFound);
      }
      var latest := LatestOf(number);
      LatestMeaning(jobs, number);
      if latest == None {
        InsertJob(id, NewJob(now, movie, number, ManualOrSearch, sortDate, Full, [], 1, None));
        return JobState(id, Queued);
      }
      var existing := latest.value;
      if movies[movie].state == CoreReady {
        return JobState(existing, Completed);
      }
      if jobs[existing].status == Queued {
        var job := jobs[existing].(priority := PriorityFor(ManualOrSearch), reason := ManualOrSearch);
        if sortDate.Some? {
          job := job.(sortDate := sortDate);
        }
        jobs := jobs[existing := job];
        return JobState(existing, Queued);
      }
      if jobs[existing].status == Running {
        return JobState(existing, Running);
      }
      return JobState(existing, Failed);
    }

    method EnsureRankingPriority(now: int, movie: Uuid, number: string, sortDate: Option<int>, id: Uuid) returns (reply: Reply)
      requires Sound(now) && id !in jobs
      modifies this
      ensures Sound(now) && (Contents(now), reply) == EnsureRanking(old(Contents(now)), movie, number, sortDate, id)
    {
      hide Inv, Attempts, RowShape;
      AttemptsOf(Contents(now));
      EnsureRankingKeepsInv(Contents(now), movie, number, sortDate, id);
      if movie !in movies || movies[movie].number != number {
        return Refused(ResourceNotFound);
      }
      var latest := LatestOf(number);
      LatestMeaning(jobs, number);
      if movies[movie].state == CoreReady {
        return JobState(if latest.Some? then latest.value else movie, Completed);
      }
      if latest == None {
        InsertJob(id, NewJob(now, movie, number, Ranking, sortDate, Full, [], 1, None));
        return JobState(id, Queued);
      }
      var existing := latest.value;
      if jobs[existing].status == Queued {
        if jobs[existing].priority > PriorityFor(Ranking) {
          var job := jobs[existing].(priority := PriorityFor(Ranking), reason := Ranking);
          if sortDate.Some? {
            job := job.(sortDate := sortDate);
          }
          jobs := jobs[existing := job];
        }
        return JobState(existing, Queued);
      }
      if jobs[existing].status == Running {
        return JobState(existing, Running);
      }
      return JobState(existing, Failed);
    }

    method RescrapeMovie(now: int, movie: Uuid, id: Uuid) returns (reply: Reply)
      requires Sound(now) && id !in jobs
      modifies this
      ensures Sound(now) && (Contents(now), reply) == Rescrape(old(Contents(now)), movie, id)
    {
      hide Inv, Attempts, RowShape;
      AttemptsOf(Contents(now));
      RescrapeKeepsInv(Contents(now), movie, id);
      if movie !in movies {
        return Refused(ResourceNotFound);
      }
      var number := movies[movie].number;
      var latest := LatestOf(number);
      LatestMeaning(jobs, number);
      if latest.Some? && Active(jobs[latest.value]) {
        var job := jobs[latest.value];
        if job.retryMode != Full {
          return Refused(JobAlreadyActive);
        }
        if job.status == Queued {
          jobs := jobs[latest.value := job.(priority := PriorityFor(ManualOrSearch), reason := ManualOrSearch)];
        }
        return Rescraped(latest.value, job.status, false);
      }
      var job := NewJob(now, movie, number, ManualOrSearch,
                        if latest.Some? then jobs[latest.value].sortDate else None, Full, [],
                        if latest.Some? then jobs[latest.value].attemptNo + 1 else 1, latest);
      InsertJob(id, job);
      return Rescraped(id, Queued, true);
    }

    method RetryManually(now: int, parent: Uuid, id: Uuid) returns (reply: Reply)
      requires Sound(now) && id !in jobs
      modifies this
      ensures Sound(now) && (Contents(now), reply) == ManualRetry(old(Contents(now)), parent, id)
    {
      hide Inv, Attempts, RowShape;
      AttemptsOf(Contents(now));
      ManualRetryKeepsInv(Contents(now), parent, id);
      if parent !in jobs || jobs[parent].movie !in movies {
        return Refused(JobNotFound);
      }
      var job := jobs[parent];
      if job.status != Failed {
        return Refused(JobNotFailed);
      }
      if !NoActive(jobs, job.number) {
        return Refused(JobAlreadyActive);
      }
      var latest := LatestOf(job.number);
      LatestMeaning(jobs, job.number);
      var attemptNo := if latest.Some? then jobs[latest.value].attemptNo + 1 else 1;
      InsertJob(id, NewJob(now, job.movie, job.number, ManualOrSearch, job.sortDate, Full, [], attemptNo, Some(parent)));
      return Enqueued(id, true);
    }

    method RetryMissingEnrichment(now: int, parent: Uuid, stages: seq<Stage>, id: Uuid) returns (reply: Reply)
      requires Sound(now) && id !in jobs
      modifies this
      ensures Sound(now) && (Contents(now), reply) == RetryEnrichment(old(Contents(now)), parent, stages, id)
    {
      hide Inv, Attempts, RowShape;
      AttemptsOf(Contents(now));
      RetryEnrichmentKeepsInv(Contents(now), parent, stages, id);
      var requested := ValidateEnrichment(stages);
      if requested == None {
        return Refused(NoRetryableEnrichment);
      }
      if parent !in jobs || jobs[parent].movie !in movies {
        return Refused(JobNotFound);
      }
      var job := jobs[parent];
      if job.status != CompletedWithWarnings && job.status != Failed {
        return Refused(NoRetryableEnrichment);
      }
      var retryable := RetryableStages(now, parent);
      if exists s :: s in requested.value && s !in retryable {
        return Refused(NoRetryableEnrichment);
      }
      if !NoActive(jobs, job.number) {
        return Refused(JobAlreadyActive);
      }
      var latest := LatestOf(job.number);
      LatestMeaning(jobs, job.number);
      var attemptNo := if latest.Some? then jobs[latest.value].attemptNo + 1 else 1;
      InsertJob(id, NewJob(now, job.movie, job.number, ManualOrSearch, job.sortDate, MissingEnrichment, requested.value,
                           attemptNo, Some(parent)));
      return Enqueued(id, true);
    }

    // ------------------------------------------------------------ claiming

    method SetPaused(now: int, value: bool)
      requires Sound(now)
      modifies this`paused
      ensures Sound(now) && Contents(now) == old(Contents(now)).(paused := value)
    {
      hide Inv;
      PauseKeepsInv(Contents(now), value);
      paused := value;
    }

    method ClaimNext(now: int, lease: int, owner: Uuid) returns (reply: Reply)
      requires Sound(now) && lease > 0 && owner !in issued
      modifies this
      ensures Sound(now) && (Contents(now), reply) == Spec.ClaimNext(old(Contents(now)), lease, owner)
    {
      hide Inv;
      ClaimKeepsInv(Contents(now), lease, owner);
      if paused {
        return Idle;
      }
      var active := |Live(jobs, now)|;
      if active >= MAX_RUNNING_JOBS {
        return Idle;
      }
      var first := FirstClaimable(now);
      if first == None {
        return Idle;
      }
      var id := first.value;
      var job := jobs[id];
      if job.movie !in movies {
        return Refused(ResourceNotFound);
      }
      if job.status == Running {
        job := job.(stages := ResetRunning(job.stages));
      }
      job := job.(status := Running, claim := Some(Lease(owner, now + lease)));
      if job.startedAt == None {
        job := job.(startedAt := Some(now));
      }
      jobs := jobs[id := job];
      issued := issued + {owner};
      if movies[job.movie].state != CoreReady {
        movies := movies[job.movie := movies[job.movie].(state := MetadataRunning)];
      }
      return Claimed(Ticket(id, owner), StagesIn(job.stages, StagePending, ALL_STAGES), AnyWarned(job.stages));
    }

    // ------------------------------------------------------------ working under a claim

    /** The fence: an unexpired claim with this owner. No other claim on the job is held then, no
        other job has this owner, and the job is the only active one of its number. */
    method RequireActiveClaim(now: int, t: Ticket) returns (held: bool)
      requires Sound(now)
      ensures held <==> HeldNow(Contents(now), t)
      ensures held ==> t.job in Live(jobs, now)
      ensures held ==> forall u :: HeldNow(Contents(now), u) && (u.job == t.job || u.owner == t.owner) ==> u == t
      ensures held ==> forall id :: id in jobs && jobs[id].number == jobs[t.job].number && Active(jobs[id]) ==> id == t.job
    {
      hide Inv;
      if HeldNow(Contents(now), t) {
        HeldAlone(Contents(now), t);
      }
      held := t.job in jobs && jobs[t.job].status == Running && jobs[t.job].claim.Some?
              && jobs[t.job].claim.value.owner == t.owner && jobs[t.job].claim.value.expiresAt > now;
    }

    method RenewClaim(now: int, t: Ticket, lease: int) returns (reply: Reply)
      requires Sound(now) && lease > 0
      modifies this`jobs
      ensures Sound(now) && (Contents(now), reply) == Renew(old(Contents(now)), t, lease)
    {
      hide Inv;
      RenewKeepsInv(Contents(now), t, lease);
      var held := RequireActiveClaim(now, t);
      if !held {
        return Refused(ClaimLost);
      }
      jobs := jobs[t.job := jobs[t.job].(claim := Some(Lease(t.owner, now + lease)))];
      return Done;
    }

    method ExpireClaim(now: int, t: Ticket) returns (reply: Reply)
      requires Sound(now)
      modifies this`jobs
      ensures Sound(now) && (Contents(now), reply) == Expire(old(Contents(now)), t)
    {
      hide Inv;
      RenewKeepsInv(Contents(now), t, 1);
      if t.job !in jobs || jobs[t.job].status != Running || jobs[t.job].claim == None || jobs[t.job].claim.value.owner != t.owner {
        return Refused(ClaimLost);
      }
      jobs := jobs[t.job := jobs[t.job].(claim := Some(Lease(t.owner, now)))];
      return Done;
    }

    method BeginStage(now: int, t: Ticket, stage: Stage) returns (reply: Reply)
      requires Sound(now)
      modifies this`jobs
      ensures Sound(now) && (Contents(now), reply) == StartStage(old(Contents(now)), t, stage)
    {
      hide Inv;
      StageStepKeepsInv(Contents(now), t, stage, StageSucceeded);
      var held := RequireActiveClaim(now, t);
      if !held {
        return Refused(ClaimLost);
      }
      var job := jobs[t.job];
      if stage !in job.stages || job.stages[stage] != StagePending {
        return Refused(StageConflict);
      }
      jobs := jobs[t.job := job.(stages := job.stages[stage := StageRunning])];
      return Done;
    }

    method EndStage(now: int, t: Ticket, stage: Stage, result: StageStatus) returns (reply: Reply)
      requires Sound(now) && (result == StageSucceeded || StageWarned(result))
      modifies this`jobs
      ensures Sound(now) && (Contents(now), reply) == FinishStage(old(Contents(now)), t, stage, result)
    {
      hide Inv;
      StageStepKeepsInv(Contents(now), t, stage, result);
      var held := RequireActiveClaim(now, t);
      if !held {
        return Refused(ClaimLost);
      }
      var job := jobs[t.job];
      if stage !in job.stages || job.stages[stage] != StageRunning {
        return Refused(StageConflict);
      }
      jobs := jobs[t.job := job.(stages := job.stages[stage := result])];
      return Done;
    }

    method CompleteJob(now: int, t: Ticket, withWarnings: bool) returns (reply: Reply)
      requires Sound(now)
      modifies this`jobs
      ensures Sound(now) && (Contents(now), reply) == Complete(old(Contents(now)), t, withWarnings)
    {
      hide Inv;
      CompleteKeepsInv(Contents(now), t, withWarnings);
      var held := RequireActiveClaim(now, t);
      if !held {
        return Refused(ClaimLost);
      }
      var job := jobs[t.job];
      if job.movie !in movies || movies[job.movie].state != CoreReady {
        return Refused(CoreNotCommitted);
      }
      if AnyOpen(job.stages) {
        return Refused(StageConflict);
      }
      var hasWarnings := AnyWarned(job.stages);
      if hasWarnings != withWarnings {
        return Refused(StageConflict);
      }
      var status := if hasWarnings then CompletedWithWarnings else Completed;
      jobs := jobs[t.job := Finished(job, status, now, None)];
      return Done;
    }

    /** The stage it closes is whichever running one the query returns first. */
    method FailJob(now: int, t: Ticket, code: string, requireUnexpired: bool) returns (reply: Reply, victim: Option<Stage>)
      requires Sound(now)
      modifies this`jobs, this`movies
      ensures Sound(now) && (Contents(now), reply) == Fail(old(Contents(now)), t, code, requireUnexpired, victim)
      ensures reply == Done ==> IsVictim(old(jobs[t.job].stages), victim)
    {
      hide Inv;
      victim := None;
      if t.job !in jobs || jobs[t.job].status != Running || jobs[t.job].claim == None || jobs[t.job].claim.value.owner != t.owner
         || (requireUnexpired && jobs[t.job].claim.value.expiresAt <= now)
      {
        return Refused(ClaimLost), None;
      }
      var job := jobs[t.job];
      if s :| s in job.stages && job.stages[s] == StageRunning {
        victim := Some(s);
        FailKeepsInv(Contents(now), t, code, requireUnexpired, victim);
        job := job.(stages := job.stages[s := StageFailed]);
      } else {
        FailKeepsInv(Contents(now), t, code, requireUnexpired, victim);
      }
      jobs := jobs[t.job := Finished(job, Failed, now, Some(code))];
      if job.movie in movies && movies[job.movie].state != CoreReady {
        movies := movies[job.movie := movies[job.movie].(state := RawOnly)];
      }
      return Done, victim;
    }

    /** The part of the core import that the queue depends on: its fence and the catalog state. */
    method ImportCoreMetadata(now: int, t: Ticket, movie: Uuid, number: string, conflict: bool) returns (reply: Reply)
      requires Sound(now)
      modifies this`movies
      ensures Sound(now) && (Contents(now), reply) == ImportCore(old(Contents(now)), t, movie, number, conflict)
    {
      hide Inv;
      ImportKeepsInv(Contents(now), t, movie, number, conflict);
      var held := RequireActiveClaim(now, t);
      if !held || jobs[t.job].movie != movie || jobs[t.job].number != number
         || JavdbCore !in jobs[t.job].stages || jobs[t.job].stages[JavdbCore] != StageRunning
      {
        return Refused(ClaimLost);
      }
      if movie !in movies {
        return Refused(MovieNotFound);
      }
      if movies[movie].number != number {
        return Refused(NumberMismatch);
      }
      if conflict {
        return Refused(IdentityConflict);
      }
      movies := movies[movie := movies[movie].(state := CoreReady)];
      return Done;
    }
  }
}
