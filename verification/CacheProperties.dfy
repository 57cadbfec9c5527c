/** What the cache lifecycle guarantees over whole runs: admission limits, leases that keep
    cleanup away, the order of eviction, and a cleaning queue in which nobody starves. */
module CacheProperties {
  import opened Wrappers
  import opened CacheModel
  import opened CacheInvariants
  import opened CacheRuns

  // ---------------------------------------------------------------- admission

  /** In every reachable state at most two jobs run and ten wait, a source has at most one job
      holding capacity per binding, directory names are distinct under a binding, every key names a
      job of the source it was used for, and the classes agree with the statuses. */
  lemma ReachableAdmission(actions: seq<Action>)
    requires AllowedRun(EMPTY, actions)
    ensures var db := Run(EMPTY, actions);
            && |OfClass(db.jobs, RunningClass)| <= 2
            && |OfClass(db.jobs, QueuedClass)| <= 10
            && (forall id :: id in db.jobs ==> StatusClass(db.jobs[id]))
            && (forall a, b :: a in db.jobs && b in db.jobs && Rivals(db.jobs[a], db.jobs[b]) ==> a == b)
            && (forall a, b :: a in db.jobs && b in db.jobs && SameDirectory(db.jobs[a], db.jobs[b]) ==> a == b)
            && (forall key :: key in db.requests ==>
                  db.requests[key].job in db.jobs && db.jobs[db.requests[key].job].source == db.requests[key].source)
  {
    EmptyIsSound();
    RunKeepsInv(EMPTY, actions);
  }

  /** What a run never changes about a job, and that a released job stays released. */
  predicate JobEvolves(a: CacheJob, b: CacheJob) {
    && a.movie == b.movie && a.source == b.source && a.dirName == b.dirName && a.createdAt == b.createdAt
    && (a.capacity == Released ==> b.capacity == Released)
  }

  ghost predicate Evolves(db: Db, db': Db) {
    && db.now <= db'.now
    && (forall id :: id in db.jobs ==> id in db'.jobs && JobEvolves(db.jobs[id], db'.jobs[id]))
    && (forall key :: key in db.requests ==> key in db'.requests && db'.requests[key] == db.requests[key])
  }

  lemma EvolvesTransitively(a: Db, b: Db, c: Db)
    requires Evolves(a, b) && Evolves(b, c)
    ensures Evolves(a, c)
  {
  }

  lemma RowEvolves(db: Db, id: Uuid, row: CacheJob)
    requires id in db.jobs && RowStep(db, id, row)
    ensures JobEvolves(db.jobs[id], row)
  {
    hide HasActiveLease, StatusClass, StampsSound;
  }

  ghost predicate OnlyRowsMove(db: Db, db': Db) {
    db'.requests == db.requests && db'.now == db.now && db'.movieOf == db.movieOf
  }

  lemma RequestsEvolve(db: Db, a: Action)
    ensures var db' := Step(db, a);
            && (forall key :: key in db.requests ==> key in db'.requests && db'.requests[key] == db.requests[key])
            && (!a.DoCreate? ==> db'.requests == db.requests)
            && (!a.DoTick? ==> db'.now == db.now)
            && (!a.DoAssign? ==> db'.movieOf == db.movieOf)
  {
    hide GuardedTransition, Cancel, SelectMedia, PipelineClaim, Work, RequestCleanup, CleanupClaim, EndCleanup, RemoveBinding,
         Play, Acquire, Heartbeat, EndLease, Blocks, NewCacheJob, OnlyRowsMove, OfClass, BusyOutcome;
    if !a.DoCreate? && !a.DoTick? && !a.DoAssign? {
      RequestsStayInChanges(db, a);
      RequestsStayInPipeline(db, a);
      RequestsStayInPlayback(db, a);
      RequestsStayInCleanup(db, a);
      assert OnlyRowsMove(db, Step(db, a));
      OnlyRowsMoved(db, Step(db, a));
    }
  }

  lemma OnlyRowsMoved(db: Db, db': Db)
    requires OnlyRowsMove(db, db')
    ensures db'.requests == db.requests && db'.now == db.now && db'.movieOf == db.movieOf
  {
  }

  lemma RequestsStayInChanges(db: Db, a: Action)
    ensures a.DoBind? || a.DoUnbind? || a.DoTransition? || a.DoCancel? || a.DoSelect? ==> OnlyRowsMove(db, Step(db, a))
  {
    hide PipelineClaim, Work, CleanupClaim, EndCleanup, Play, Acquire, Heartbeat, EndLease, CancelledRow, Moved, InitialStamps, OfClass,
         RequestCleanup, Create;
  }

  lemma RequestsStayInPipeline(db: Db, a: Action)
    ensures a.DoPipelineClaim? || a.DoWork? ==> OnlyRowsMove(db, Step(db, a))
  {
    hide GuardedTransition, Cancel, SelectMedia, RemoveBinding, CleanupClaim, EndCleanup, Play, Acquire, Heartbeat, EndLease, Applied,
         PipelineClaimable, PipelineClaimed, OfClass, RequestCleanup, Create;
  }

  lemma RequestsStayInPlayback(db: Db, a: Action)
    ensures a.DoPlay? || a.DoAcquire? || a.DoHeartbeat? || a.DoEndLease? ==> OnlyRowsMove(db, Step(db, a))
  {
    hide GuardedTransition, Cancel, SelectMedia, PipelineClaim, Work, RequestCleanup, CleanupClaim, EndCleanup, RemoveBinding, Create, Touched,
         SessionUsable;
  }

  lemma RequestsStayInCleanup(db: Db, a: Action)
    ensures a.DoRequestCleanup? || a.DoCleanupClaim? || a.DoEndCleanup? || a.DoBusy? ==> OnlyRowsMove(db, Step(db, a))
  {
    hide GuardedTransition, Cancel, SelectMedia, PipelineClaim, Work, RemoveBinding, Create, Play, Acquire, Heartbeat, EndLease,
         HasActiveLease, Chosen, Superseded, NextAttemptNo, DetachedUnowned, CleanupClaimed, EndedRow, EndedAttempt;
  }

  lemma NoJobAppears(db: Db, a: Action)
    requires !a.DoCreate?
    ensures forall id :: id in Step(db, a).jobs <==> id in db.jobs
  {
    if a.DoRequestCleanup? || a.DoCleanupClaim? || a.DoEndCleanup? || a.DoBusy? {
      NoJobAppearsInCleanup(db, a);
    } else if a.DoPlay? || a.DoAcquire? || a.DoHeartbeat? || a.DoEndLease? {
      NoJobAppearsInPlayback(db, a);
    } else {
      hide GuardedTransition, Cancel, SelectMedia, PipelineClaim, Work, RemoveBinding;
      match a
      case DoTransition(id, target) => NoJobAppearsInTransition(db, id, target);
      case DoCancel(id, confirmed) => NoJobAppearsInCancel(db, id, confirmed);
      case DoSelect(id, valid, ttl) => NoJobAppearsInSelect(db, id, valid, ttl);
      case DoPipelineClaim(id, token) => NoJobAppearsInPipelineClaim(db, id, token);
      case DoWork(id, token, effect) => NoJobAppearsInWork(db, id, token, effect);
      case DoUnbind => NoJobAppearsInUnbind(db);
      case _ =>
    }
  }

  lemma NoJobAppearsInTransition(db: Db, id: Uuid, target: Status)
    ensures GuardedTransition(db, id, target).0.jobs.Keys == db.jobs.Keys
  {
    hide Moved, OfClass;
  }

  lemma NoJobAppearsInCancel(db: Db, id: Uuid, confirmed: bool)
    ensures Cancel(db, id, confirmed).0.jobs.Keys == db.jobs.Keys
  {
    hide CancelledRow, Cancellable;
  }

  lemma NoJobAppearsInSelect(db: Db, id: Uuid, valid: bool, ttl: int)
    ensures SelectMedia(db, id, valid, ttl).0.jobs.Keys == db.jobs.Keys
  {
    hide InitialStamps;
  }

  lemma NoJobAppearsInPipelineClaim(db: Db, id: Uuid, token: Uuid)
    ensures PipelineClaim(db, id, token).0.jobs.Keys == db.jobs.Keys
  {
    hide PipelineClaimable, PipelineClaimed, OfClass;
  }

  lemma NoJobAppearsInWork(db: Db, id: Uuid, token: Uuid, effect: Effect)
    ensures Work(db, id, token, effect).0.jobs.Keys == db.jobs.Keys
  {
    hide Applied;
  }

  lemma NoJobAppearsInUnbind(db: Db)
    ensures RemoveBinding(db).0.jobs.Keys == db.jobs.Keys
  {
  }

  lemma NoJobAppearsInCleanup(db: Db, a: Action)
    requires a.DoRequestCleanup? || a.DoCleanupClaim? || a.DoEndCleanup? || a.DoBusy?
    ensures forall id :: id in Step(db, a).jobs <==> id in db.jobs
  {
    hide HasActiveLease, Chosen, Superseded, NextAttemptNo, CleanupClaimed, DetachedUnowned, EndedRow;
    if a.DoCleanupClaim? && Chosen(db).Some? {
      ChosenRow(db);
    }
  }

  lemma NoJobAppearsInPlayback(db: Db, a: Action)
    requires a.DoPlay? || a.DoAcquire? || a.DoHeartbeat? || a.DoEndLease?
    ensures forall id :: id in Step(db, a).jobs <==> id in db.jobs
  {
    hide Touched;
  }

  lemma StepEvolves(db: Db, a: Action)
    requires Inv(db) && Allowed(db, a)
    ensures Evolves(db, Step(db, a))
  {
    hide Inv, Step, RowStep, JobEvolves;
    StepKeepsInv(db, a);
    RequestsEvolve(db, a);
    TimeEvolves(db, a);
    forall id | id in db.jobs ensures JobEvolves(db.jobs[id], Step(db, a).jobs[id]) {
      RowEvolves(db, id, Step(db, a).jobs[id]);
    }
  }

  lemma TimeEvolves(db: Db, a: Action)
    requires Allowed(db, a)
    ensures db.now <= Step(db, a).now
  {
    RequestsEvolve(db, a);
  }

  /** Over any run an idempotency key stays bound to the job it was first given, and a job keeps
      its movie, source and directory name and never takes back a capacity it released. */
  lemma {:induction false} RunEvolves(db: Db, actions: seq<Action>)
    requires Inv(db) && AllowedRun(db, actions)
    ensures Evolves(db, Run(db, actions))
    decreases |actions|
  {
    hide Inv, Step;
    if actions != [] {
      StepEvolves(db, actions[0]);
      StepKeepsInv(db, actions[0]);
      RunEvolves(Step(db, actions[0]), actions[1..]);
      EvolvesTransitively(db, Step(db, actions[0]), Run(db, actions));
    }
  }

  // ------------------------------------------------- which movie an idempotency key leads to

  /** Jobs holding capacity, and jobs behind keys, have the movie they were asked for. */
  ghost predicate Settled(db: Db) {
    && (forall id :: id in db.jobs && db.jobs[id].capacity != Released ==> CurrentMovie(db.movieOf, db.jobs[id]))
    && (forall key :: key in db.requests ==>
          db.requests[key].job in db.jobs && db.jobs[db.requests[key].job].movie == db.requests[key].movie)
  }

  predicate CurrentMovie(movieOf: map<Uuid, Uuid>, job: CacheJob) {
    job.source in movieOf && movieOf[job.source] == job.movie
  }

  lemma StepKeepsSettled(db: Db, a: Action)
    requires Inv(db) && Settled(db) && Allowed(db, a) && !a.DoAssign?
    ensures Settled(Step(db, a))
  {
    hide Inv, JobEvolves;
    var db' := Step(db, a);
    StepKeepsInv(db, a);
    if a.DoCreate? {
      CreateKeepsSettled(db, a);
    } else {
      RequestsEvolve(db, a);
      NoJobAppears(db, a);
      RowsKeepSettled(db, db');
    }
  }

  lemma RowsKeepSettled(db: Db, db': Db)
    requires Settled(db) && RowsStep(db, db'.jobs) && db'.movieOf == db.movieOf && db'.requests == db.requests
    requires forall id :: id in db'.jobs ==> id in db.jobs
    ensures Settled(db')
  {
    hide RowStep;
    forall id | id in db.jobs ensures JobEvolves(db.jobs[id], db'.jobs[id]) {
      RowEvolves(db, id, db'.jobs[id]);
    }
  }

  lemma CreateKeepsSettled(db: Db, a: Action)
    requires Settled(db) && a.DoCreate? && Allowed(db, a)
    ensures Settled(Step(db, a))
  {
    hide Insert;
    var DoCreate(movie, source, key, sourceOk, id, dirName) := a;
    if source in db.movieOf && db.movieOf[source] == movie {
      InsertKeepsSettled(db, movie, source, key, id, dirName, Submitting);
      InsertKeepsSettled(db, movie, source, key, id, dirName, Queued);
    }
  }

  lemma InsertKeepsSettled(db: Db, movie: Uuid, source: Uuid, key: string, id: Uuid, dirName: string, status: Status)
    requires Settled(db) && id !in db.jobs && source in db.movieOf && db.movieOf[source] == movie && status != Cancelling
    ensures Settled(Insert(db, movie, source, key, id, dirName, status))
  {
  }

  /** Moving a source to another movie keeps that exactly when no job of another movie still holds
      capacity for the source. */
  lemma AssignKeepsSettledExactly(db: Db, source: Uuid, movie: Uuid)
    requires Settled(db)
    ensures Settled(Step(db, DoAssign(source, movie))) <==>
            forall id :: id in db.jobs && db.jobs[id].capacity != Released && db.jobs[id].source == source ==>
              db.jobs[id].movie == movie
  {
    var db' := Step(db, DoAssign(source, movie));
    if Settled(db') {
      forall id | id in db.jobs && db.jobs[id].capacity != Released && db.jobs[id].source == source
        ensures db.jobs[id].movie == movie
      {
        assert CurrentMovie(db'.movieOf, db'.jobs[id]);
      }
    }
  }

  /** A source with a job holding capacity is only given the movie that job already has. */
  predicate Guarded(db: Db, a: Action) {
    a.DoAssign? ==>
      forall id :: id in db.jobs && db.jobs[id].capacity != Released && db.jobs[id].source == a.source ==> db.jobs[id].movie == a.movie
  }

  ghost predicate GuardedRun(db: Db, actions: seq<Action>)
    decreases |actions|
  {
    actions == [] || (Guarded(db, actions[0]) && GuardedRun(Step(db, actions[0]), actions[1..]))
  }

  ghost predicate SettledThroughout(db: Db, actions: seq<Action>)
    decreases |actions|
  {
    Settled(db) && (actions == [] || SettledThroughout(Step(db, actions[0]), actions[1..]))
  }

  lemma StepKeepsSettledExactly(db: Db, a: Action)
    requires Inv(db) && Settled(db) && Allowed(db, a)
    ensures Settled(Step(db, a)) <==> Guarded(db, a)
  {
    hide Inv, Settled, Step;
    if a.DoAssign? {
      AssignKeepsSettledExactly(db, a.source, a.movie);
    } else {
      StepKeepsSettled(db, a);
    }
  }

  /** Along a run the keys lead to jobs of the movies they were used with, at every moment, exactly
      when no assignment moved a source away from the movie of a job that held capacity. */
  lemma {:induction false} SettledExactlyWhenGuarded(db: Db, actions: seq<Action>)
    requires Inv(db) && Settled(db) && AllowedRun(db, actions)
    ensures SettledThroughout(db, actions) <==> GuardedRun(db, actions)
    ensures SettledThroughout(db, actions) ==> Settled(Run(db, actions))
    decreases |actions|
  {
    hide Inv, Settled, Step, Guarded;
    if actions != [] {
      StepKeepsInv(db, actions[0]);
      StepKeepsSettledExactly(db, actions[0]);
      if Guarded(db, actions[0]) {
        SettledExactlyWhenGuarded(Step(db, actions[0]), actions[1..]);
      } else {
        NotSettledNow(Step(db, actions[0]), actions[1..]);
      }
    }
  }

  lemma NotSettledNow(db: Db, actions: seq<Action>)
    requires !Settled(db)
    ensures !SettledThroughout(db, actions)
  {
    hide Settled;
  }

  /** From the empty database, whatever sources are added and moved under that guard, every key leads
      to a job of the movie and the source it was used with. */
  lemma KeysKeepTheirMovie(actions: seq<Action>)
    requires AllowedRun(EMPTY, actions) && GuardedRun(EMPTY, actions)
    ensures var db := Run(EMPTY, actions);
            forall key :: key in db.requests ==>
              && db.requests[key].job in db.jobs
              && db.jobs[db.requests[key].job].movie == db.requests[key].movie
              && db.jobs[db.requests[key].job].source == db.requests[key].source
  {
    EmptyIsSound();
    assert Settled(EMPTY);
    SettledExactlyWhenGuarded(EMPTY, actions);
    ReachableAdmission(actions);
  }

  /** Otherwise the next key used for the source is bound to a job of the old movie. */
  lemma MovedSourceMixesMovies(db: Db, holder: Uuid, movie: Uuid, key: string, id: Uuid, dirName: string)
    requires Inv(db) && holder in db.jobs && db.jobs[holder].capacity != Released && db.jobs[holder].movie != movie
    requires key !in db.requests
    ensures var source := db.jobs[holder].source;
            var (db', reply) := Create(Step(db, DoAssign(source, movie)), movie, source, key, true, id, dirName);
            && reply == Admitted(holder, false)
            && key in db'.requests && db'.requests[key].movie == movie && db'.jobs[db'.requests[key].job].movie != movie
  {
    hide Admission, Keyed, DirectoriesDistinct, Stamped, LeasesSound, PlaysReady, Tokens, AttemptsSound;
    var source := db.jobs[holder].source;
    assert Blocks(db.jobs[holder], source, db.binding.value);
    forall k | k in db.jobs && Blocks(db.jobs[k], source, db.binding.value) ensures k == holder {
      assert Rivals(db.jobs[k], db.jobs[holder]);
    }
  }

  /** A source's job is admitted, the source is moved, and a new key is used for it. */
  const MOVING_RUN: seq<Action> := [
    DoBind(9), DoAssign(5, 1), DoCreate(1, 5, "first-play-request", true, 7, "0a1b2c3d4e"),
    DoAssign(5, 2), DoCreate(2, 5, "other-play-request", true, 8, "5f6a7b8c9d")]

  lemma ThenRun(db: Db, a: Action, rest: seq<Action>)
    ensures Run(db, [a] + rest) == Run(Step(db, a), rest)
    ensures AllowedRun(db, [a] + rest) <==> Allowed(db, a) && AllowedRun(Step(db, a), rest)
  {
    assert ([a] + rest)[1..] == rest;
  }

  /** From the empty database, step by step, to a key that leads to a job of another movie. */
  lemma KeyOfAnotherMovie()
    ensures AllowedRun(EMPTY, MOVING_RUN) && !GuardedRun(EMPTY, MOVING_RUN)
    ensures var db := Run(EMPTY, MOVING_RUN);
            var key := "other-play-request";
            && key in db.requests && db.requests[key].job in db.jobs
            && db.requests[key].movie == 2 && db.jobs[db.requests[key].job].movie == 1
  {
    hide Step, Allowed, Guarded, Inv, Run, AllowedRun, GuardedRun;
    FirstIsAdmitted();
    MovedThenMixed(Step(Step(Step(EMPTY, MOVING_RUN[0]), MOVING_RUN[1]), MOVING_RUN[2]));
    RunsInFive(MOVING_RUN[0], MOVING_RUN[1], MOVING_RUN[2], MOVING_RUN[3], MOVING_RUN[4]);
  }

  predicate OneJobAdmitted(db: Db) {
    && db.jobs.Keys == {7} && db.jobs[7].movie == 1 && db.jobs[7].source == 5 && db.jobs[7].dirName == "0a1b2c3d4e"
    && db.jobs[7].capacity != Released && db.requests.Keys == {"first-play-request"}
  }

  lemma FirstIsAdmitted()
    ensures var one := Step(EMPTY, MOVING_RUN[0]); var two := Step(one, MOVING_RUN[1]); var three := Step(two, MOVING_RUN[2]);
            && Allowed(EMPTY, MOVING_RUN[0]) && Allowed(one, MOVING_RUN[1]) && Allowed(two, MOVING_RUN[2])
            && OneJobAdmitted(three) && Inv(three)
  {
    hide Inv;
    var one := Step(EMPTY, MOVING_RUN[0]);
    var two := Step(one, MOVING_RUN[1]);
    assert OfClass(two.jobs, RunningClass) == {};
    EmptyIsSound();
    StepKeepsInv(EMPTY, MOVING_RUN[0]);
    StepKeepsInv(one, MOVING_RUN[1]);
    StepKeepsInv(two, MOVING_RUN[2]);
  }

  lemma MovedThenMixed(db: Db)
    requires Inv(db) && OneJobAdmitted(db)
    ensures Allowed(db, MOVING_RUN[3]) && !Guarded(db, MOVING_RUN[3]) && Allowed(Step(db, MOVING_RUN[3]), MOVING_RUN[4])
    ensures var db' := Step(Step(db, MOVING_RUN[3]), MOVING_RUN[4]);
            var key := "other-play-request";
            && key in db'.requests && db'.requests[key].job in db'.jobs
            && db'.requests[key].movie == 2 && db'.jobs[db'.requests[key].job].movie == 1
  {
    hide Inv, Create;
    MovedSourceMixesMovies(db, 7, 2, "other-play-request", 8, "5f6a7b8c9d");
    var moved := Step(db, MOVING_RUN[3]);
    assert MOVING_RUN[3] == DoAssign(db.jobs[7].source, 2);
    KeptByReuse(moved, 7);
  }

  /** Reusing a job adds a key and changes no job. */
  lemma KeptByReuse(db: Db, holder: Uuid)
    requires Create(db, 2, 5, "other-play-request", true, 8, "5f6a7b8c9d").1 == Admitted(holder, false)
    ensures "other-play-request" !in db.requests ==>
              var db' := Create(db, 2, 5, "other-play-request", true, 8, "5f6a7b8c9d").0;
              db'.jobs == db.jobs && db'.requests == db.requests["other-play-request" := PlayRequest(2, 5, holder)]
  {
    hide Blocks, NewCacheJob, OfClass;
  }

  lemma RunsInFive(a: Action, b: Action, c: Action, d: Action, e: Action)
    ensures var one := Step(EMPTY, a); var two := Step(one, b); var three := Step(two, c); var four := Step(three, d);
            && Run(EMPTY, [a, b, c, d, e]) == Step(four, e)
            && (AllowedRun(EMPTY, [a, b, c, d, e]) <==>
                  Allowed(EMPTY, a) && Allowed(one, b) && Allowed(two, c) && Allowed(three, d) && Allowed(four, e))
            && (GuardedRun(EMPTY, [a, b, c, d, e]) ==> Guarded(three, d))
  {
    hide Step, Allowed, Guarded;
    var one := Step(EMPTY, a);
    var two := Step(one, b);
    var three := Step(two, c);
    assert [a, b, c, d, e] == [a] + ([b] + ([c] + ([d] + ([e] + []))));
    assert [a, b, c, d, e][1..] == [b, c, d, e] && [b, c, d, e][1..] == [c, d, e] && [c, d, e][1..] == [d, e];
    assert GuardedRun(EMPTY, [a, b, c, d, e]) ==> GuardedRun(one, [b, c, d, e]);
    assert GuardedRun(one, [b, c, d, e]) ==> GuardedRun(two, [c, d, e]);
    assert GuardedRun(two, [c, d, e]) ==> GuardedRun(three, [d, e]);
    ThenRun(EMPTY, a, [b] + ([c] + ([d] + ([e] + []))));
    ThenRun(one, b, [c] + ([d] + ([e] + [])));
    ThenRun(two, c, [d] + ([e] + []));
    ThenRun(three, d, [e] + []);
    ThenRun(Step(three, d), e, []);
  }

  // ---------------------------------------------------------------- leases keep cleanup away

  /** Every lease of a job, running or not, expires strictly before the job's own time to live. */
  lemma LeaseOutlivedByJob(db: Db, key: LeaseKey)
    requires Inv(db) && key in db.leases
    ensures key.session in db.sessions && db.sessions[key.session].job in db.jobs
    ensures var job := db.jobs[db.sessions[key.session].job];
            job.stamps.Some? && db.leases[key].expiresAt < job.stamps.value.expiresAt
  {
    LeaseFacts(db, key);
    RowFacts(db, db.sessions[key.session].job);
  }

  /** So a job past its time to live is never being played. */
  lemma DueJobsAreNotPlayed(db: Db, id: Uuid)
    requires Inv(db) && id in db.jobs && Due(db.jobs[id], db.now)
    ensures !HasActiveLease(db, id)
  {
    hide Inv;
    forall key | key in db.leases && key.session in db.sessions && db.sessions[key.session].job == id
      ensures !LeaseActive(db.leases[key], db.now)
    {
      LeaseOutlivedByJob(db, key);
    }
  }

  /** A job that is being played is ready, and no transaction moves it out of ready. */
  lemma PlayedJobStaysReady(db: Db, a: Action, id: Uuid)
    requires Inv(db) && Allowed(db, a) && HasActiveLease(db, id)
    ensures id in db.jobs && db.jobs[id].status == Ready
    ensures id in Step(db, a).jobs && Step(db, a).jobs[id].status == Ready
  {
    hide Inv, Step;
    var key :| key in db.leases && key.session in db.sessions && db.sessions[key.session].job == id && LeaseActive(db.leases[key], db.now);
    LeaseFacts(db, key);
    RowFacts(db, id);
    StepKeepsInv(db, a);
    assert RowStep(db, id, Step(db, a).jobs[id]);
  }

  /** The capacity service's transition looks at no lease: on a ready job it breaks this exactly
      when someone is playing from it. */
  lemma TransitionIgnoresLeases(db: Db, id: Uuid, target: Status)
    requires Inv(db) && id in db.jobs && db.jobs[id].status == Ready && target in Successors(Ready)
    ensures var db' := GuardedTransition(db, id, target).0;
            PlaysReady(db'.leases, db'.sessions, db'.jobs, db'.now) <==> !HasActiveLease(db, id)
  {
    hide Admission, Bound, OnePerSource, Keyed, DirectoriesDistinct, Stamped, Tokens, AttemptsSound;
    var db' := GuardedTransition(db, id, target).0;
    assert db'.jobs[id].status == target;
    if HasActiveLease(db, id) {
      var key :| key in db.leases && key.session in db.sessions && db.sessions[key.session].job == id && LeaseActive(db.leases[key], db.now);
      assert key in db'.leases && LeaseActive(db'.leases[key], db'.now);
    }
  }
}
