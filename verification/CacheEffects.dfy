/** What each transaction of the cache lifecycle achieves, seen through the transactions that can
    follow it. */
module CacheEffects {
  import opened Wrappers
  import opened CacheModel
  import opened CacheInvariants
  import opened CacheRuns
  import CleanupOrder

  /** The same tables at another instant; a later one is reached by a tick of the clock. */
  function At(db: Db, now: int): (db': Db)
    ensures now >= db.now ==> Allowed(db, DoTick(now - db.now)) && db' == Step(db, DoTick(now - db.now))
  {
    db.(now := now)
  }

  // ---------------------------------------------------------------- admission

  /** What a play request does: a known key replays its job or conflicts; a new key is bound to the job it
      gets, which is new or already there, and a refusal changes nothing. A new job is submitted while
      fewer than two run and queued while fewer than ten wait. */
  lemma AdmitsExactly(db: Db, movie: Uuid, source: Uuid, key: string, sourceOk: bool, id: Uuid, dirName: string)
    requires Inv(db) && Allowed(db, DoCreate(movie, source, key, sourceOk, id, dirName))
    ensures var db' := Step(db, DoCreate(movie, source, key, sourceOk, id, dirName));
            var reply := Create(db, movie, source, key, sourceOk, id, dirName).1;
            && (key in db.requests ==>
                  && db' == db
                  && reply == if db.requests[key].movie == movie && db.requests[key].source == source
                              then Admitted(db.requests[key].job, false) else Refused(IdempotencyConflict))
            && (key !in db.requests && reply.Refused? ==> db' == db)
            && (key !in db.requests && reply.Admitted? ==>
                  && db'.requests == db.requests[key := PlayRequest(movie, source, reply.job)]
                  && db' == db.(jobs := db'.jobs, requests := db'.requests))
            && (reply.Admitted? && reply.created ==> NewlyAdmitted(db, db', movie, source, id, dirName) && reply.job == id)
            && (reply.Admitted? && !reply.created ==> db'.jobs == db.jobs)
  {
    hide Admission, Bound, OnePerSource, DirectoriesDistinct, Stamped, LeasesSound, PlaysReady, Tokens, AttemptsSound, OfClass, Blocks;
  }

  /** The source's active job on this binding is shared: every new key in order gets that job. */
  lemma ActiveJobIsShared(db: Db, movie: Uuid, source: Uuid, key: string, id: Uuid, dirName: string, k: Uuid)
    requires Inv(db) && key !in db.requests && db.binding.Some? && source in db.movieOf && db.movieOf[source] == movie
    requires k in db.jobs && Blocks(db.jobs[k], source, db.binding.value)
    ensures Create(db, movie, source, key, true, id, dirName) ==
            (db.(requests := db.requests[key := PlayRequest(movie, source, k)]), Admitted(k, false))
  {
    hide Admission, Bound, Keyed, DirectoriesDistinct, Stamped, LeasesSound, PlaysReady, Tokens, AttemptsSound, OfClass;
    forall l | l in db.jobs && Blocks(db.jobs[l], source, db.binding.value) ensures l == k {
      assert Rivals(db.jobs[k], db.jobs[l]);
    }
  }

  /** A new job's row and status, and that no other job's changed. */
  ghost predicate NewlyAdmitted(db: Db, db': Db, movie: Uuid, source: Uuid, id: Uuid, dirName: string) {
    && id !in db.jobs && id in db'.jobs && db'.jobs == db.jobs[id := db'.jobs[id]]
    && var job := db'.jobs[id];
    && job.movie == movie && job.source == source && job.binding == db.binding && job.dirName == dirName
    && job.createdAt == db.now && job.updatedAt == db.now && job.claim == None && job.taskDir == None && job.stamps == None
    && !job.submitStarted && job.infoHash == None && job.reason == None
    && (if |OfClass(db.jobs, RunningClass)| < 2 then job.status == Submitting && job.capacity == RunningClass
        else |OfClass(db.jobs, QueuedClass)| < 10 && job.status == Queued && job.capacity == QueuedClass)
  }

  /** A new key with everything in order is only ever refused when both capacities are used up. */
  lemma RefusedExactlyWhenFull(db: Db, movie: Uuid, source: Uuid, key: string, id: Uuid, dirName: string)
    requires Inv(db) && key !in db.requests && db.binding.Some? && source in db.movieOf && db.movieOf[source] == movie
    requires forall k :: k in db.jobs ==> !Blocks(db.jobs[k], source, db.binding.value)
    ensures Create(db, movie, source, key, true, id, dirName).1 ==
            if |OfClass(db.jobs, RunningClass)| == 2 && |OfClass(db.jobs, QueuedClass)| == 10
            then Refused(QueueFull) else Admitted(id, true)
  {
    hide OfClass, Bound, OnePerSource, Keyed, DirectoriesDistinct, Stamped, LeasesSound, PlaysReady, Tokens, AttemptsSound;
  }

  lemma RunningIsBounded(db: Db)
    requires Inv(db)
    ensures |OfClass(db.jobs, RunningClass)| <= 2
  {
    hide OfClass, Bound, OnePerSource, Keyed, DirectoriesDistinct, Stamped, LeasesSound, PlaysReady, Tokens, AttemptsSound;
  }

  /** Entering the running class while it is full. */
  predicate EntersFullClass(db: Db, job: CacheJob, target: Status) {
    && target != Cancelling && CapacityOf(target) == RunningClass && job.capacity != RunningClass
    && |OfClass(db.jobs, RunningClass)| == 2
  }

  predicate MovedTo(db: Db, db': Db, id: Uuid, target: Status) {
    && id in db.jobs && id in db'.jobs && db' == db.(jobs := db.jobs[id := db'.jobs[id]])
    && var (before, after) := (db.jobs[id], db'.jobs[id]);
    && after == before.(status := target, capacity := after.capacity, updatedAt := db.now)
    && StatusClass(after) && (target == Cancelling ==> after.capacity == before.capacity)
  }

  /** The guarded transition takes exactly the legal edges that leave the running capacity respected. */
  lemma TransitionsExactly(db: Db, id: Uuid, target: Status)
    requires Inv(db) && id in db.jobs
    ensures var (db', reply) := (Step(db, DoTransition(id, target)), GuardedTransition(db, id, target).1);
            && (reply == Done <==> target in Successors(db.jobs[id].status) && !EntersFullClass(db, db.jobs[id], target))
            && (if reply == Done then MovedTo(db, db', id, target) else db' == db)
  {
    hide Inv, OfClass;
    RowFacts(db, id);
    RunningIsBounded(db);
  }

  // ---------------------------------------------------------------- leases protect

  /** While a lease runs, its job cannot be sent to cleaning, and no cleanup claim takes it. */
  lemma ActiveLeaseProtects(db: Db, key: LeaseKey)
    requires Inv(db) && key in db.leases && LeaseActive(db.leases[key], db.now)
    ensures key.session in db.sessions && db.sessions[key.session].job in db.jobs
    ensures var id := db.sessions[key.session].job;
            && HasActiveLease(db, id) && RequestCleanup(db, id) == (db, Refused(ActiveLease)) && Chosen(db) != Some(id)
  {
    hide Inv, Chosen;
    LeaseFacts(db, key);
    ChosenMeaning(db);
  }

  /** What a client that started, acquired or kept up its playback has: a lease that runs until the
      earlier of 90 seconds from now and its session's end, on a job that lives on for its hours. */
  ghost predicate PlaysFrom(db: Db, db': Db, key: LeaseKey, ttl: int) {
    && key in db'.leases && key.session in db'.sessions && db'.sessions[key.session].job in db'.jobs
    && var job := db'.jobs[db'.sessions[key.session].job];
    && job.status == Ready && job.stamps.Some? && job.updatedAt == db.now
    && job.stamps.value.lastAccessed == db.now && job.stamps.value.expiresAt == db.now + ttl * 3_600 * SECOND
    && (forall later :: db.now <= later ==>
          (LeaseActive(db'.leases[key], later) <==> later < db.now + 90 * SECOND && later < db'.sessions[key.session].expiresAt))
  }

  /** Until then cleanup stays away from the job, whatever the clock shows. */
  lemma PlayingKeepsCleanupAway(db: Db, db': Db, key: LeaseKey, ttl: int, later: int)
    requires Inv(db') && db'.now == db.now && PlaysFrom(db, db', key, ttl)
    requires db.now <= later < db.now + 90 * SECOND && later < db'.sessions[key.session].expiresAt
    ensures var id := db'.sessions[key.session].job;
            && HasActiveLease(At(db', later), id)
            && RequestCleanup(At(db', later), id) == (At(db', later), Refused(ActiveLease))
            && Chosen(At(db', later)) != Some(id)
  {
    hide Inv, Chosen;
    TickKeepsInv(db', later - db'.now);
    ActiveLeaseProtects(At(db', later), key);
  }

  ghost predicate OnlyPlaybackMoved(db: Db, db': Db, key: LeaseKey) {
    && key.session in db.sessions
    && var id := db.sessions[key.session].job;
    && id in db.jobs && id in db'.jobs && key in db'.leases
    && db' == db.(jobs := db.jobs[id := db'.jobs[id]], leases := db.leases[key := db'.leases[key]])
    && db'.jobs[id] == db.jobs[id].(stamps := db'.jobs[id].stamps, updatedAt := db.now)
    && (db.jobs[id].stamps.Some? ==> db'.jobs[id].stamps.Some? && db'.jobs[id].stamps.value.readyAt == db.jobs[id].stamps.value.readyAt)
  }

  /** The session was neither revoked nor has run out, and its job is still ready. */
  predicate Open(db: Db, session: Uuid) {
    && session in db.sessions && db.sessions[session].job in db.jobs
    && var s := db.sessions[session];
    !s.revoked && db.now < s.expiresAt && db.jobs[s.job].status == Ready
  }

  /** Acquiring succeeds exactly for an open session, and the client then plays. */
  lemma AcquiringPlays(db: Db, session: Uuid, client: Uuid, ttl: int)
    requires Inv(db) && ValidTtl(ttl)
    ensures var (db', reply) := (Step(db, DoAcquire(session, client, ttl)), Acquire(db, session, client, ttl).1);
            && (reply == Done <==> Open(db, session))
            && (reply != Done ==> db' == db)
            && (reply == Done ==> PlaysFrom(db, db', LeaseKey(session, client), ttl) && OnlyPlaybackMoved(db, db', LeaseKey(session, client)))
  {
    hide Inv;
  }

  /** So does a playing heartbeat of the session's own administrator on a lease; a stopped one ends
      the lease at once. */
  lemma HeartbeatPlays(db: Db, session: Uuid, client: Uuid, admin: Uuid, playing: bool, ttl: int)
    requires Inv(db) && ValidTtl(ttl)
    ensures var (db', reply) := (Step(db, DoHeartbeat(session, client, admin, playing, ttl)), Heartbeat(db, session, client, admin, playing, ttl).1);
            var key := LeaseKey(session, client);
            && (reply == Done <==> Open(db, session) && db.sessions[session].admin == admin && key in db.leases)
            && (reply != Done ==> db' == db)
            && (reply == Done && playing ==> PlaysFrom(db, db', key, ttl) && OnlyPlaybackMoved(db, db', key))
            && (reply == Done && !playing ==> Stopped(db, db', key))
  {
    hide Inv;
  }

  /** The lease is over for good, and nothing else changed. */
  ghost predicate Stopped(db: Db, db': Db, key: LeaseKey) {
    && key in db'.leases && db' == db.(leases := db.leases[key := db'.leases[key]])
    && forall later :: !LeaseActive(db'.leases[key], later)
  }

  /** Ending a running lease stops it; a lease that ended stays as it was. */
  lemma EndingStops(db: Db, session: Uuid, client: Uuid)
    ensures var db' := Step(db, DoEndLease(session, client));
            var key := LeaseKey(session, client);
            if key !in db.leases || db.leases[key].endedAt.Some? then db' == db
            else Stopped(db, db', key) && db'.leases[key].endedAt == Some(db.now)
  {
  }

  /** When the last client leaves, the job can be cleaned. */
  lemma LastClientFreesTheJob(db: Db, session: Uuid, client: Uuid)
    requires Inv(db) && LeaseKey(session, client) in db.leases && LeaseActive(db.leases[LeaseKey(session, client)], db.now)
    requires forall key :: PlaysJob(db, key, JobOf(db, session)) ==> key == LeaseKey(session, client)
    ensures var db' := EndLease(db, session, client).0;
            !HasActiveLease(db', JobOf(db, session)) && RequestCleanup(db', JobOf(db, session)).1 == Done
  {
    hide Inv;
    LeaseFacts(db, LeaseKey(session, client));
    var db' := EndLease(db, session, client).0;
    forall key | PlaysJob(db', key, JobOf(db, session)) ensures PlaysJob(db, key, JobOf(db, session)) {
    }
    NobodyPlays(db', JobOf(db, session));
  }

  lemma NobodyPlays(db: Db, job: Uuid)
    requires forall key :: !PlaysJob(db, key, job)
    ensures !HasActiveLease(db, job)
  {
    forall key | key in db.leases && key.session in db.sessions && db.sessions[key.session].job == job
      ensures !LeaseActive(db.leases[key], db.now)
    {
      assert !PlaysJob(db, key, job);
    }
  }

  predicate PlaysJob(db: Db, key: LeaseKey, job: Uuid) {
    key in db.leases && LeaseActive(db.leases[key], db.now) && key.session in db.sessions && db.sessions[key.session].job == job
  }

  function JobOf(db: Db, session: Uuid): Uuid {
    if session in db.sessions then db.sessions[session].job else 0
  }

  /** The session is the client's, and usable for twelve hours as long as the job stays ready. */
  ghost predicate SessionOpened(db: Db, db': Db, session: Uuid, job: Uuid, admin: Uuid) {
    && session in db'.sessions && db'.sessions[session].job == job && db'.sessions[session].admin == admin
    && (forall later :: db.now <= later ==> (SessionUsable(At(db', later), session) <==> later < db.now + 12 * 3_600 * SECOND))
  }

  /** Starting to play gives the client one session and one running lease per item. */
  lemma PlayingStarts(db: Db, a: Action, id: Uuid)
    requires Inv(db) && a.DoPlay? && Allowed(db, a) && id in a.sessions
    ensures var (db', reply) := (Step(db, a), Play(db, a.id, a.admin, a.client, a.sessions, a.ttl).1);
            && (reply == Done <==> a.id in db.jobs && db.jobs[a.id].status == Ready)
            && (if reply == Done
                then PlaysFrom(db, db', LeaseKey(id, a.client), a.ttl) && SessionOpened(db, db', id, a.id, a.admin)
                else db' == db)
  {
    hide Inv, PlaysFrom, SessionOpened;
    var (db', reply) := Play(db, a.id, a.admin, a.client, a.sessions, a.ttl);
    if reply == Done {
      PlayOpensSession(db, a, id);
      PlayGivesLease(db, a, id);
    }
  }

  lemma PlayOpensSession(db: Db, a: Action, id: Uuid)
    requires a.DoPlay? && Allowed(db, a) && id in a.sessions
    requires Play(db, a.id, a.admin, a.client, a.sessions, a.ttl).1 == Done
    ensures SessionOpened(db, Play(db, a.id, a.admin, a.client, a.sessions, a.ttl).0, id, a.id, a.admin)
  {
    hide LeaseRows;
  }

  lemma PlayGivesLease(db: Db, a: Action, id: Uuid)
    requires a.DoPlay? && Allowed(db, a) && id in a.sessions
    requires Play(db, a.id, a.admin, a.client, a.sessions, a.ttl).1 == Done
    ensures PlaysFrom(db, Play(db, a.id, a.admin, a.client, a.sessions, a.ttl).0, LeaseKey(id, a.client), a.ttl)
  {
    hide LeaseRows;
    LeaseRowOf(a.sessions, a.client, Lease(db.now, Min(db.now + LEASE_DURATION, db.now + PLAYBACK_SESSION_DURATION), None), id);
  }

  lemma LeaseRowOf(ids: seq<Uuid>, client: Uuid, lease: Lease, id: Uuid)
    requires id in ids
    ensures LeaseKey(id, client) in LeaseRows(ids, client, lease) && LeaseRows(ids, client, lease)[LeaseKey(id, client)] == lease
  {
  }

  /** And nothing but the job's row, the new sessions and their leases changed. */
  lemma PlayingAddsOnly(db: Db, a: Action)
    requires a.DoPlay? && Allowed(db, a)
    ensures var db' := Step(db, a);
            && (forall s :: s in db'.sessions <==> s in db.sessions || (s in a.sessions && db' != db))
            && (forall s :: s in db.sessions ==> db'.sessions[s] == db.sessions[s])
            && (forall key :: key in db.leases ==> key in db'.leases && db'.leases[key] == db.leases[key])
            && (forall key :: key in db'.leases && key !in db.leases ==> key.session in a.sessions && key.client == a.client)
            && (forall k :: k in db.jobs ==> k in db'.jobs && (k != a.id ==> db'.jobs[k] == db.jobs[k]))
            && db'.requests == db.requests && db'.attempts == db.attempts && db'.now == db.now
  {
    hide Touched;
    var db' := Play(db, a.id, a.admin, a.client, a.sessions, a.ttl).0;
    if db' != db {
      assert a.sessions[0] in a.sessions;
    }
  }

  // ---------------------------------------------------------------- cancellation

  predicate NothingRemote(job: CacheJob) {
    job.taskDir == None && !job.submitStarted && job.infoHash == None
  }

  /** A worker holds the job to create its directory. */
  predicate CreatingDirectory(job: CacheJob) {
    job.status == Submitting && NothingRemote(job) && job.claim.Some?
  }

  /** Where a cancellation leaves a job: cleaned at once when nothing exists remotely; to be cleaned when
      only its directory does; otherwise cancelling, for the pipeline to go on with. A claim survives
      only while its worker is creating the directory. */
  predicate CancelledFrom(before: CacheJob, after: CacheJob, now: int) {
    && after.status == (if NothingRemote(before) && !CreatingDirectory(before) then Cleaned
                        else if before.taskDir.Some? && !before.submitStarted then Cleaning else Cancelling)
    && after.claim == (if CreatingDirectory(before) then before.claim else None)
    && after.reason == Some(CancelledByUser) && after.updatedAt == now && StatusClass(after)
    && (after.status == Cancelling ==> after.capacity == before.capacity)
    && after == before.(status := after.status, capacity := after.capacity, claim := after.claim, reason := after.reason, updatedAt := now)
  }

  lemma CancelledRowMeaning(job: CacheJob, now: int)
    requires StatusClass(job) && Cancellable(job.status)
    ensures CancelledRow(job, now).Some? && CancelledFrom(job, CancelledRow(job, now).value, now)
  {
  }

  /** Only the job's row changed: to the cancelled one, or, when it was on its way already, at most in
      its reason. */
  predicate CancelAccepted(db: Db, db': Db, id: Uuid) {
    && id in db.jobs && id in db'.jobs && db' == db.(jobs := db.jobs[id := db'.jobs[id]])
    && if Cancellable(db.jobs[id].status) then CancelledFrom(db.jobs[id], db'.jobs[id], db.now)
       else db'.jobs[id] == db.jobs[id].(reason := db'.jobs[id].reason) && db'.jobs[id].reason.Some?
  }

  /** A confirmed cancellation is accepted exactly for a job that is not ready yet or is already on its
      way to be cleaned. */
  lemma CancelsExactly(db: Db, id: Uuid, confirmed: bool)
    requires Inv(db)
    ensures var (db', reply) := Cancel(db, id, confirmed);
            && (reply == Done <==>
                  confirmed && id in db.jobs
                  && (Cancellable(db.jobs[id].status) || db.jobs[id].status == Cancelling || db.jobs[id].status == Cleaning))
            && (if reply == Done then CancelAccepted(db, db', id) else db' == db)
  {
    hide Inv, CancelledRow, CancelledFrom;
    if id in db.jobs {
      RowFacts(db, id);
      hide GoodRow, StatusClass;
      if Cancellable(db.jobs[id].status) {
        CancelledRowMeaning(db.jobs[id], db.now);
      }
    }
  }

  /** Statuses from which a job is on its way out. */
  predicate Ending(status: Status) {
    status == Cancelling || status == Cleaning || status == CleanupFailed || status == Failed || status == Cleaned || status == Detached
  }

  ghost predicate KeepsEnding(db: Db, db': Db) {
    forall id :: id in db.jobs && Ending(db.jobs[id].status) ==> id in db'.jobs && Ending(db'.jobs[id].status)
  }

  lemma AppliedKeepsEnding(job: CacheJob, effect: Effect, now: int)
    requires job.claim.Some? && Ending(job.status)
    ensures Applied(job, effect, now).Some? ==> Ending(Applied(job, effect, now).value.status)
  {
  }

  lemma WorkKeepsEnding(db: Db, id: Uuid, token: Uuid, effect: Effect)
    ensures KeepsEnding(db, Work(db, id, token, effect).0)
  {
    hide Applied;
    if id in db.jobs && db.jobs[id].claim.Some? && Ending(db.jobs[id].status) {
      AppliedKeepsEnding(db.jobs[id], effect, db.now);
    }
  }

  lemma OneRowKeepsEnding(db: Db, db': Db, id: Uuid)
    requires id in db.jobs && id in db'.jobs && db'.jobs == db.jobs[id := db'.jobs[id]]
    requires Ending(db.jobs[id].status) ==> Ending(db'.jobs[id].status)
    ensures KeepsEnding(db, db')
  {
  }

  lemma CancelKeepsEnding(db: Db, id: Uuid, confirmed: bool)
    requires Inv(db)
    ensures KeepsEnding(db, Cancel(db, id, confirmed).0)
  {
    hide Inv, Cancel, KeepsEnding;
    CancelsExactly(db, id, confirmed);
    var db' := Cancel(db, id, confirmed).0;
    if db' == db {
      NothingKeepsEnding(db);
    } else {
      OneRowKeepsEnding(db, db', id);
    }
  }

  lemma NothingKeepsEnding(db: Db)
    ensures KeepsEnding(db, db)
  {
  }

  lemma TransitionKeepsEnding(db: Db, id: Uuid, target: Status)
    ensures KeepsEnding(db, GuardedTransition(db, id, target).0)
  {
    hide OfClass;
  }

  lemma PipelineClaimKeepsEnding(db: Db, id: Uuid, token: Uuid)
    ensures KeepsEnding(db, PipelineClaim(db, id, token).0)
  {
    hide OfClass;
  }

  lemma ChangesKeepEnding(db: Db, a: Action)
    requires Inv(db) && (a.DoTransition? || a.DoCancel? || a.DoSelect? || a.DoPipelineClaim?)
    ensures KeepsEnding(db, Step(db, a))
  {
    hide Inv, Create, Work, CleanupClaim, EndCleanup, Play, Acquire, Heartbeat, EndLease, RequestCleanup, OfClass, RemoveBinding,
         Cancel, GuardedTransition, PipelineClaim;
    if a.DoPipelineClaim? {
      PipelineClaimKeepsEnding(db, a.id, a.token);
    } else if a.DoTransition? {
      TransitionKeepsEnding(db, a.id, a.target);
    } else if a.DoCancel? {
      CancelKeepsEnding(db, a.id, a.confirmed);
    }
  }

  lemma ClaimKeepsEnding(db: Db, token: Uuid, attempt: Uuid)
    ensures KeepsEnding(db, CleanupClaim(db, token, attempt).0)
  {
    hide Chosen, NextAttemptNo, HasActiveLease;
    if Chosen(db).Some? {
      ChosenRow(db);
    }
  }

  lemma EndKeepsEnding(db: Db, t: CleanupTicket, outcome: Outcome)
    ensures KeepsEnding(db, EndCleanup(db, t, outcome).0)
  {
  }

  lemma CleanupKeepsEnding(db: Db, a: Action)
    requires a.DoRequestCleanup? || a.DoCleanupClaim? || a.DoEndCleanup? || a.DoBusy?
    ensures KeepsEnding(db, Step(db, a))
  {
    hide Create, Work, Cancel, GuardedTransition, SelectMedia, PipelineClaim, Play, Acquire, Heartbeat, EndLease, CleanupClaim,
         RemoveBinding, HasActiveLease, EndCleanup;
    if a.DoCleanupClaim? {
      ClaimKeepsEnding(db, a.token, a.attempt);
    } else if a.DoEndCleanup? {
      EndKeepsEnding(db, a.ticket, a.outcome);
    } else if a.DoBusy? {
      EndKeepsEnding(db, a.ticket, BusyOutcome(a.ticket.attemptNo));
    }
  }

  lemma PlaybackKeepsEnding(db: Db, a: Action)
    requires Inv(db) && Allowed(db, a) && (a.DoPlay? || a.DoAcquire? || a.DoHeartbeat? || a.DoEndLease?)
    ensures KeepsEnding(db, Step(db, a))
  {
    hide Inv, Create, Work, Cancel, GuardedTransition, SelectMedia, PipelineClaim, RequestCleanup, CleanupClaim, EndCleanup, OfClass,
         RemoveBinding;
  }

  lemma CreateKeepsEnding(db: Db, a: Action)
    requires a.DoCreate? && Allowed(db, a)
    ensures KeepsEnding(db, Step(db, a))
  {
    hide Blocks, OfClass;
  }

  lemma StepKeepsEnding(db: Db, a: Action)
    requires Inv(db) && Allowed(db, a)
    ensures KeepsEnding(db, Step(db, a))
  {
    hide Inv, Create, GuardedTransition, Cancel, SelectMedia, PipelineClaim, RequestCleanup, CleanupClaim, EndCleanup, Play, Acquire,
         Heartbeat, EndLease, Work;
    if a.DoWork? {
      WorkKeepsEnding(db, a.id, a.token, a.effect);
    } else if a.DoTransition? || a.DoCancel? || a.DoSelect? || a.DoPipelineClaim? {
      ChangesKeepEnding(db, a);
    } else if a.DoRequestCleanup? || a.DoCleanupClaim? || a.DoEndCleanup? || a.DoBusy? {
      CleanupKeepsEnding(db, a);
    } else if a.DoPlay? || a.DoAcquire? || a.DoHeartbeat? || a.DoEndLease? {
      PlaybackKeepsEnding(db, a);
    } else if a.DoCreate? {
      CreateKeepsEnding(db, a);
    }
  }

  /** After a cancellation was accepted, no run ever makes the job ready or playable again. */
  lemma {:induction false} CancelledNeverPlays(db: Db, id: Uuid, actions: seq<Action>)
    requires Inv(db) && Cancel(db, id, true).1 == Done && AllowedRun(Step(db, DoCancel(id, true)), actions)
    ensures var later := Run(Step(db, DoCancel(id, true)), actions);
            id in later.jobs && Ending(later.jobs[id].status) && !Materialized(later.jobs[id].status) && !HasActiveLease(later, id)
  {
    hide Inv, Cancel, HasActiveLease;
    CancelsExactly(db, id, true);
    CancelKeepsInv(db, id, true);
    EndingIsForGood(Step(db, DoCancel(id, true)), id, actions);
    var later := Run(Step(db, DoCancel(id, true)), actions);
    RunKeepsInv(Step(db, DoCancel(id, true)), actions);
    RowFacts(later, id);
  }

  lemma {:induction false} EndingIsForGood(db: Db, id: Uuid, actions: seq<Action>)
    requires Inv(db) && AllowedRun(db, actions) && id in db.jobs && Ending(db.jobs[id].status)
    ensures id in Run(db, actions).jobs && Ending(Run(db, actions).jobs[id].status)
    decreases |actions|
  {
    hide Inv, Step;
    if actions != [] {
      StepKeepsEnding(db, actions[0]);
      StepKeepsInv(db, actions[0]);
      EndingIsForGood(Step(db, actions[0]), id, actions[1..]);
    }
  }

  // ---------------------------------------------------------------- the worker pipeline

  /** The pipeline claims a job at work that nobody holds, a downloading one two seconds after its last
      update whoever holds it, and a queued one while fewer than two run. */
  lemma PipelineClaimsExactly(db: Db, id: Uuid, token: Uuid)
    ensures var (db', reply) := PipelineClaim(db, id, token);
            && (reply == Done <==>
                  && id in db.jobs
                  && var job := db.jobs[id];
                  || (job.status in {Submitting, Offlining, Resolving, Cancelling} && (job.claim == None || job.claim.value.expiresAt <= db.now))
                  || (job.status == Offlining && db.now - job.updatedAt >= 2 * SECOND)
                  || (job.status == Queued && |OfClass(db.jobs, RunningClass)| < 2))
            && (reply != Done ==> db' == db)
  {
    hide OfClass;
  }

  /** A pipeline claim starts a queued job, changes nothing else but the claim, and is held for exactly
      90 seconds, in which its worker may go on extending it. */
  lemma PipelineClaimHolds(db: Db, id: Uuid, token: Uuid, later: int)
    requires PipelineClaim(db, id, token).1 == Done && db.now <= later
    ensures var db' := Step(db, DoPipelineClaim(id, token));
            && PipelineTaken(db, db', id, token)
            && (Work(At(db', later), id, token, RenewClaim).1 == Done <==> later < db.now + 90 * SECOND)
  {
    hide Work, At;
    PipelineClaimWrites(db, id, token);
    hide PipelineClaim;
    WorkerHolds(PipelineClaim(db, id, token).0, id, later);
  }

  predicate PipelineTaken(db: Db, db': Db, id: Uuid, token: Uuid) {
    && id in db.jobs && id in db'.jobs && db' == db.(jobs := db.jobs[id := db'.jobs[id]], issued := db.issued + {token})
    && var (before, after) := (db.jobs[id], db'.jobs[id]);
    && after.claim == Some(Claim(token, db.now + 90 * SECOND))
    && after.status == (if before.status == Queued then Submitting else before.status)
    && after.capacity == (if before.status == Queued then RunningClass else before.capacity)
    && after == before.(status := after.status, capacity := after.capacity, claim := after.claim, updatedAt := db.now)
  }

  lemma PipelineClaimWrites(db: Db, id: Uuid, token: Uuid)
    requires PipelineClaim(db, id, token).1 == Done
    ensures PipelineTaken(db, PipelineClaim(db, id, token).0, id, token)
  {
    hide OfClass;
  }

  lemma WorkerHolds(db: Db, id: Uuid, later: int)
    requires id in db.jobs && db.jobs[id].claim.Some?
    ensures var claim := db.jobs[id].claim.value;
            Work(At(db, later), id, claim.token, RenewClaim).1 == Done <==> later < claim.expiresAt
  {
  }

  /** A worker's claim on a job, still running. */
  predicate Works(db: Db, id: Uuid, token: Uuid) {
    id in db.jobs && db.jobs[id].claim.Some? && db.jobs[id].claim.value.token == token && db.jobs[id].claim.value.expiresAt > db.now
  }

  /** The row of a submitting job once its download was submitted. */
  function Submitted(job: CacheJob, cid: string, hash: string, now: int): CacheJob {
    job.(status := Offlining, capacity := RunningClass, taskDir := Some(cid), submitStarted := true, infoHash := Some(hash),
         claim := None, updatedAt := now)
  }

  /** Under one claim a worker creates the directory, announces the submission and submits: the job is
      then downloading under that directory. */
  lemma SubmissionGoesOffline(db: Db, id: Uuid, token: Uuid, cid: string, hash: string)
    requires Works(db, id, token) && db.jobs[id].status == Submitting && NothingRemote(db.jobs[id])
    ensures var made := Work(db, id, token, SaveDirectory(cid)).0;
            var announced := Work(made, id, token, MarkSubmitStarted).0;
            && Work(announced, id, token, SaveSubmission(hash))
               == (db.(jobs := db.jobs[id := Submitted(db.jobs[id], cid, hash, db.now)]), Done)
            && (forall other :: other != cid ==> Work(made, id, token, SaveDirectory(other)).1 != Done)
            && Work(announced, id, token, MarkSubmitStarted).1 != Done
  {
    hide Applied, Submitted;
    SubmissionRows(db.jobs[id], cid, hash, db.now);
    var made := Work(db, id, token, SaveDirectory(cid)).0;
    var announced := Work(made, id, token, MarkSubmitStarted).0;
    assert Work(announced, id, token, SaveSubmission(hash)).0.jobs == db.jobs[id := Submitted(db.jobs[id], cid, hash, db.now)];
  }

  lemma SubmissionRows(job: CacheJob, cid: string, hash: string, now: int)
    requires job.status == Submitting && NothingRemote(job) && job.claim.Some?
    ensures var made := Applied(job, SaveDirectory(cid), now);
            && made == Some(job.(taskDir := Some(cid), claim := Some(Claim(job.claim.value.token, now + 90 * SECOND)), updatedAt := now))
            && (forall other :: other != cid ==> Applied(made.value, SaveDirectory(other), now) == None)
            && var announced := Applied(made.value, MarkSubmitStarted, now);
            && announced.Some? && announced.value.claim == made.value.claim
            && Applied(announced.value, MarkSubmitStarted, now) == None
            && Applied(announced.value, SaveSubmission(hash), now) == Some(Submitted(job, cid, hash, now))
  {
  }

  /** A finished download is resolved only for the hash that was submitted. */
  lemma DownloadIsResolved(db: Db, id: Uuid, token: Uuid, hash: string)
    requires Works(db, id, token) && db.jobs[id].status == Offlining
    ensures Work(db, id, token, OfflineSnapshot(hash, OfflineCompleted)) ==
            if db.jobs[id].infoHash != Some(hash) then (db, Refused(ClaimLost))
            else (db.(jobs := db.jobs[id := db.jobs[id].(status := Resolving, capacity := RunningClass, claim := None, updatedAt := db.now)]),
                  Done)
  {
  }

  /** A resolved job is ready at once when its media were chosen automatically, and waits for a choice
      otherwise; its lifetime runs from now. */
  lemma ResolutionMaterializes(db: Db, id: Uuid, token: Uuid, autoSelected: bool, ttl: int)
    requires Works(db, id, token) && db.jobs[id].status == Resolving && db.jobs[id].stamps == None
    ensures Work(db, id, token, CompleteResolution(autoSelected, ttl)) ==
            (db.(jobs := db.jobs[id := db.jobs[id].(
                   status := if autoSelected then Ready else AwaitingSelection, capacity := ReadyClass, claim := None,
                   stamps := Some(Stamps(db.now, db.now, db.now + ttl * 3_600 * SECOND)), updatedAt := db.now)]),
             Done)
  {
  }

  /** A submission whose outcome is unknown leaves the job without a hash and out of the pipeline's reach,
      until somebody cancels it. */
  lemma UncertainJobsWait(db: Db, id: Uuid, token: Uuid, another: Uuid)
    requires Works(db, id, token) && db.jobs[id].status == Submitting
    ensures var (db', reply) := (Step(db, DoWork(id, token, MarkUncertain)), Work(db, id, token, MarkUncertain).1);
            && (reply == Done <==> db.jobs[id].taskDir.Some? && db.jobs[id].submitStarted)
            && (reply != Done ==> db' == db)
            && (reply == Done ==>
                  && db' == db.(jobs := db.jobs[id := db.jobs[id].(status := SubmitUncertain, capacity := RunningClass, infoHash := None,
                                                                   claim := None, updatedAt := db.now)])
                  && PipelineClaim(db', id, another) == (db', Nothing) && Cancel(db', id, true).1 == Done)
  {
    hide OfClass;
  }

  /** A job a worker fails or gives up releases its capacity, and no worker takes it again; a failed
      download does the same. */
  lemma FailedJobsAreLeft(db: Db, id: Uuid, token: Uuid, another: Uuid)
    requires Works(db, id, token)
    ensures var (db', reply) := Work(db, id, token, FailJob);
            && (reply == Done <==> db.jobs[id].status !in {SubmitUncertain, Failed, Cleaned, Detached})
            && (reply == Done ==> Left(db, db', id, Failed) && PipelineClaim(db', id, another) == (db', Nothing))
            && (db.jobs[id].status == Offlining && db.jobs[id].infoHash.Some? ==>
                  Work(db, id, token, OfflineSnapshot(db.jobs[id].infoHash.value, OfflineFailed)) == (db', reply))
  {
    hide OfClass;
  }

  /** Only a resolving job is detached by its worker. */
  lemma DetachedJobsAreLeft(db: Db, id: Uuid, token: Uuid, another: Uuid)
    requires Works(db, id, token)
    ensures var (db', reply) := Work(db, id, token, DetachJob);
            && (reply == Done <==> db.jobs[id].status == Resolving)
            && (reply == Done ==> Left(db, db', id, Detached) && PipelineClaim(db', id, another) == (db', Nothing))
  {
    hide OfClass;
  }

  predicate Left(db: Db, db': Db, id: Uuid, status: Status) {
    id in db.jobs
    && db' == db.(jobs := db.jobs[id := db.jobs[id].(status := status, capacity := Released, claim := None, updatedAt := db.now)])
  }

  /** A deferred job stays with its worker for the delay, a day at most, and is then free again. */
  lemma DeferredJobsComeBack(db: Db, id: Uuid, token: Uuid, delay: int, later: int)
    requires Works(db, id, token) && delay > 0 && db.now <= later
    ensures var (db', reply) := (Step(db, DoWork(id, token, Defer(delay))), Work(db, id, token, Defer(delay)).1);
            && reply == Done && id in db'.jobs
            && db' == db.(jobs := db.jobs[id := db.jobs[id].(claim := db'.jobs[id].claim, updatedAt := db.now)])
            && (Works(At(db', later), id, token) <==> later < db.now + delay && later < db.now + 24 * 3_600 * SECOND)
            && (Available(db'.jobs[id], later) <==> !Works(At(db', later), id, token))
  {
  }

  /** The download a cancelled job is found to have is recorded under the claim, and only while it is
      being cancelled. */
  lemma CancelTargetIsSaved(db: Db, id: Uuid, token: Uuid, hash: string)
    requires Works(db, id, token)
    ensures Work(db, id, token, SaveCancelTarget(hash)) ==
            if db.jobs[id].status != Cancelling then (db, Refused(ClaimLost))
            else (db.(jobs := db.jobs[id := db.jobs[id].(infoHash := Some(hash), claim := Some(Claim(token, db.now + 90 * SECOND)),
                                                         updatedAt := db.now)]), Done)
  {
  }

  /** When the pipeline is done with a cancelled job, its directory is left to cleanup; without one the
      job is cleaned. */
  lemma CancellationCompletes(db: Db, id: Uuid, token: Uuid)
    requires Works(db, id, token) && db.jobs[id].status == Cancelling
    ensures var (db', reply) := (Step(db, DoWork(id, token, CompleteCancel)), Work(db, id, token, CompleteCancel).1);
            && reply == Done && id in db'.jobs && db' == db.(jobs := db.jobs[id := db'.jobs[id]])
            && db'.jobs[id].status == (if db.jobs[id].taskDir.Some? then Cleaning else Cleaned)
            && db'.jobs[id].claim == None && db'.jobs[id].reason == Some(CancelledByUser) && StatusClass(db'.jobs[id])
  {
  }

  // ---------------------------------------------------------------- selection

  /** A valid choice makes an awaiting job ready, with the lifetime it already had; it can then be
      played. */
  lemma SelectionMakesPlayable(db: Db, id: Uuid, valid: bool, ttl: int, admin: Uuid, client: Uuid, session: Uuid)
    requires Inv(db) && ValidTtl(ttl)
    ensures var (db', reply) := (Step(db, DoSelect(id, valid, ttl)), SelectMedia(db, id, valid, ttl).1);
            && (reply == Done <==> id in db.jobs && db.jobs[id].status == AwaitingSelection && valid)
            && (reply != Done ==> db' == db)
            && (reply == Done ==>
                  && db' == db.(jobs := db.jobs[id := db.jobs[id].(status := Ready, updatedAt := db.now)])
                  && Play(db', id, admin, client, [session], ttl).1 == Done)
  {
    hide Inv;
    if id in db.jobs {
      RowFacts(db, id);
    }
  }

  // ---------------------------------------------------------------- cleanup

  /** Sent to cleaning, free of any claim, with the reason it already had or a manual one. */
  predicate SentToCleaning(db: Db, db': Db, id: Uuid) {
    && id in db.jobs && id in db'.jobs && db' == db.(jobs := db.jobs[id := db'.jobs[id]]) && WaitingCleanup(db', id)
    && db'.jobs[id] == db.jobs[id].(status := Cleaning, capacity := ReadyClass, claim := None,
                                    reason := db'.jobs[id].reason, updatedAt := db.now)
    && db'.jobs[id].reason == if db.jobs[id].reason == None then Some(Manual) else db.jobs[id].reason
  }

  /** Cleanup is accepted exactly for a job nobody plays that is materialized, failed to be cleaned or
      is being cleaned; it then waits in the queue, free of any claim. */
  lemma RequestQueues(db: Db, id: Uuid)
    requires Inv(db)
    ensures var (db', reply) := (Step(db, DoRequestCleanup(id)), RequestCleanup(db, id).1);
            && (reply == Done <==>
                  && id in db.jobs && !HasActiveLease(db, id)
                  && (Materialized(db.jobs[id].status) || db.jobs[id].status == CleanupFailed || db.jobs[id].status == Cleaning))
            && (if reply == Done && db.jobs[id].status != Cleaning then SentToCleaning(db, db', id) else db' == db)
  {
    hide Inv;
  }

  /** Of the jobs waiting to be cleaned the claim takes the one that has waited longest, the lower id on a
      tie, and it evicts only when none waits. */
  lemma LongestWaitingFirst(db: Db, k: Uuid)
    requires WaitingCleanup(db, k)
    ensures Chosen(db).Some?
    ensures var id := Chosen(db).value;
            && WaitingCleanup(db, id)
            && (k == id || db.jobs[id].updatedAt < db.jobs[k].updatedAt || (db.jobs[id].updatedAt == db.jobs[k].updatedAt && id < k))
  {
    hide Chosen;
    CleanupOrder.ChosenExactly(db);
  }

  predicate LivedOut(job: CacheJob, now: int) {
    job.stamps.Some? && now >= job.stamps.value.expiresAt
  }

  /** A new attempt of a job fails the one that was running, and leaves the others as they were. */
  predicate Succeeds(before: Attempt, after: Attempt, job: Uuid) {
    after == if before.job == job && before.status == AttemptRunning then before.(status := AttemptFailed) else before
  }

  /** The job is being cleaned under a new claim, on its next attempt; an evicted one carries the reason
      it was evicted for. */
  ghost predicate TakenForCleanup(db: Db, db': Db, t: CleanupTicket) {
    && t.job in db.jobs && t.job in db'.jobs && t.attempt in db'.attempts
    && db' == db.(jobs := db.jobs[t.job := db'.jobs[t.job]], attempts := db'.attempts, issued := db.issued + {t.token})
    && db'.jobs[t.job].status == Cleaning && StatusClass(db'.jobs[t.job]) && db'.jobs[t.job].updatedAt == db.now
    && db'.jobs[t.job].reason == (if !Materialized(db.jobs[t.job].status) then db.jobs[t.job].reason
                                  else Some(if LivedOut(db.jobs[t.job], db.now) then Ttl else OverCapacity))
    && db'.attempts[t.attempt] == Attempt(t.job, t.attemptNo, AttemptRunning, false)
    && t.attemptNo == NextAttemptNo(db.attempts, t.job)
    && (forall k :: k in db.attempts ==> k in db'.attempts && Succeeds(db.attempts[k], db'.attempts[k], t.job))
  }

  /** A cleanup claim takes the job the queries choose, and is held for exactly 120 seconds. */
  lemma CleanupClaimHolds(db: Db, token: Uuid, attempt: Uuid, later: int)
    requires Inv(db) && Allowed(db, DoCleanupClaim(token, attempt)) && CleanupClaim(db, token, attempt).1.Claimed? && db.now <= later
    ensures var (db', t) := (Step(db, DoCleanupClaim(token, attempt)), CleanupClaim(db, token, attempt).1.ticket);
            && Chosen(db) == Some(t.job) && t.token == token && t.attempt == attempt && TakenForCleanup(db, db', t)
            && (CleanupHeld(At(db', later), t) <==> later < db.now + 120 * SECOND)
  {
    hide Inv, Chosen, NextAttemptNo, HasActiveLease;
    ChosenRow(db);
  }

  /** A job without a binding or a directory cannot be cleaned remotely: the claim detaches it, with the
      reason it was taken for, and releases its capacity. */
  lemma UnownedIsDetached(db: Db, token: Uuid, attempt: Uuid)
    requires Inv(db) && attempt !in db.attempts && Chosen(db).Some?
    ensures var (db', reply) := (Step(db, DoCleanupClaim(token, attempt)), CleanupClaim(db, token, attempt).1);
            var id := Chosen(db).value;
            && id in db.jobs
            && (reply.Claimed? <==> db.jobs[id].binding.Some? && db.jobs[id].taskDir.Some?)
            && (!reply.Claimed? ==>
                  && reply == Nothing && id in db'.jobs && db' == db.(jobs := db.jobs[id := db'.jobs[id]])
                  && db'.jobs[id].status == Detached && db'.jobs[id].capacity == Released && db'.jobs[id].claim == None
                  && db'.jobs[id].reason.Some? && db'.jobs[id].updatedAt == db.now
                  && (Materialized(db.jobs[id].status) ==>
                        db'.jobs[id].reason == Some(if LivedOut(db.jobs[id], db.now) then Ttl else OverCapacity)))
  {
    hide Inv, Chosen, NextAttemptNo, HasActiveLease;
    ChosenRow(db);
  }

  /** How the four endings leave a held job: cleaned and released; failed; released to the queue; or
      detached. Each ends the attempt and the claim. */
  lemma EndingsLeave(db: Db, t: CleanupTicket, outcome: Outcome)
    requires Inv(db) && CleanupHeld(db, t)
    ensures var (db', reply) := (Step(db, DoEndCleanup(t, outcome)), EndCleanup(db, t, outcome).1);
            && reply == Done && t.job in db'.jobs && t.attempt in db'.attempts
            && db' == db.(jobs := db.jobs[t.job := db'.jobs[t.job]], attempts := db.attempts[t.attempt := db'.attempts[t.attempt]])
            && var (job, attempt) := (db'.jobs[t.job], db'.attempts[t.attempt]);
            && job.claim == None && job.updatedAt == db.now && StatusClass(job)
            && job.reason == (if outcome == CleanupSucceeded && db.jobs[t.job].reason == None then Some(Manual) else db.jobs[t.job].reason)
            && (outcome == CleanupSucceeded ==> job.status == Cleaned && attempt.status == AttemptSucceeded)
            && (outcome == CleanupFailure ==> job.status == CleanupFailed && attempt.status == AttemptFailed && !attempt.busy)
            && (outcome == CleanupBusy ==> job.status == Cleaning && attempt.status == AttemptFailed && attempt.busy)
            && (outcome == CleanupDetached ==> job.status == Detached && attempt.status == AttemptDetached)
  {
    hide Inv, HasActiveLease;
    RowFacts(db, t.job);
    RunningIsNotBusy(db, t.attempt);
  }

  /** An ending happens once; a released job waits in the queue again, and a failed one can be requested
      again. */
  lemma EndingsAreFinal(db: Db, t: CleanupTicket, outcome: Outcome, again: Outcome)
    requires Inv(db) && CleanupHeld(db, t)
    ensures var db' := Step(db, DoEndCleanup(t, outcome));
            && EndCleanup(db', t, again) == (db', Refused(ClaimLost))
            && (outcome == CleanupBusy ==> WaitingCleanup(db', t.job))
            && (outcome == CleanupFailure ==> RequestCleanup(db', t.job).1 == Done)
  {
    hide Inv, HasActiveLease, EndedRow, EndedAttempt, StatusClass;
    RowFacts(db, t.job);
    EndingsLeave(db, t, outcome);
    SameLeases(db, Step(db, DoEndCleanup(t, outcome)), t.job);
  }

  /** A busy remote gives a held job back to the queue up to its 59th attempt; from the 60th on the
      cleanup has failed. */
  lemma BusyGivesUp(db: Db, t: CleanupTicket)
    requires Inv(db) && CleanupHeld(db, t)
    ensures var db' := Step(db, DoBusy(t));
            t.job in db'.jobs && if t.attemptNo < 60 then WaitingCleanup(db', t.job) else db'.jobs[t.job].status == CleanupFailed
  {
    hide Inv, EndCleanup;
    EndingsLeave(db, t, BusyOutcome(t.attemptNo));
    EndingsAreFinal(db, t, BusyOutcome(t.attemptNo), CleanupFailure);
  }

  lemma RunningIsNotBusy(db: Db, a: Uuid)
    requires Inv(db) && a in db.attempts && db.attempts[a].status == AttemptRunning
    ensures !db.attempts[a].busy
  {
    hide Admission, Bound, OnePerSource, Keyed, DirectoriesDistinct, Stamped, LeasesSound, PlaysReady, Tokens, HasNo;
  }

  lemma SameLeases(db: Db, db': Db, id: Uuid)
    requires db'.leases == db.leases && db'.sessions == db.sessions && db'.now == db.now
    ensures HasActiveLease(db', id) <==> HasActiveLease(db, id)
  {
  }

  // ---------------------------------------------------------------- the binding

  /** The binding is removed exactly when every job has released its capacity; then no job is bound any
      more, and new keys are refused until an account is bound again. */
  lemma UnbindingForgets(db: Db, movie: Uuid, source: Uuid, key: string, id: Uuid, dirName: string)
    requires key !in db.requests
    ensures var (db', reply) := (Step(db, DoUnbind), RemoveBinding(db).1);
            && (reply == Done <==> forall k :: k in db.jobs ==> db.jobs[k].capacity == Released)
            && (reply != Done ==> db' == db)
            && (reply == Done ==>
                  && db' == db.(binding := None, jobs := db'.jobs) && db'.jobs.Keys == db.jobs.Keys
                  && (forall k :: k in db.jobs ==> db'.jobs[k] == db.jobs[k].(binding := None))
                  && Create(db', movie, source, key, true, id, dirName) == (db', Refused(BindingRequired)))
  {
    hide OfClass, Blocks;
  }
}
