/** What every reachable state of the cache lifecycle satisfies. */
module CacheInvariants {
  import opened Wrappers
  import opened CacheModel

  // ---------------------------------------------------------------- the invariant

  predicate StatusClass(job: CacheJob) {
    if job.status == Cancelling then job.capacity != Released else job.capacity == CapacityOf(job.status)
  }

  ghost predicate Admission(jobs: map<Uuid, CacheJob>) {
    && (forall id :: id in jobs ==> StatusClass(jobs[id]))
    && |OfClass(jobs, RunningClass)| <= RUNNING_CAPACITY
    && |OfClass(jobs, QueuedClass)| <= QUEUED_CAPACITY
  }

  /** Jobs that hold capacity belong to the current binding. */
  ghost predicate Bound(jobs: map<Uuid, CacheJob>, binding: Option<Uuid>) {
    forall id :: id in jobs && jobs[id].capacity != Released ==> binding.Some? && jobs[id].binding == binding
  }

  predicate Rivals(a: CacheJob, b: CacheJob) {
    a.capacity != Released && b.capacity != Released && a.source == b.source && a.binding == b.binding
  }

  ghost predicate OnePerSource(jobs: map<Uuid, CacheJob>) {
    forall a, b :: a in jobs && b in jobs && Rivals(jobs[a], jobs[b]) ==> a == b
  }

  /** An idempotency key names a job of the source it was used for. */
  ghost predicate Keyed(requests: map<string, PlayRequest>, jobs: map<Uuid, CacheJob>) {
    forall key :: key in requests ==> requests[key].job in jobs && jobs[requests[key].job].source == requests[key].source
  }

  predicate SameDirectory(a: CacheJob, b: CacheJob) {
    a.binding.Some? && a.binding == b.binding && a.dirName == b.dirName
  }

  ghost predicate DirectoriesDistinct(jobs: map<Uuid, CacheJob>) {
    forall a, b :: a in jobs && b in jobs && SameDirectory(jobs[a], jobs[b]) ==> a == b
  }

  predicate StampsSound(job: CacheJob, now: int) {
    && (Materialized(job.status) ==> job.stamps.Some? && job.claim == None)
    && (Cancellable(job.status) || job.status == Cancelling ==> job.stamps == None)
    && (job.stamps.Some? ==> job.stamps.value.lastAccessed <= now
                             && job.stamps.value.lastAccessed + HOUR <= job.stamps.value.expiresAt)
    && job.updatedAt <= now
  }

  ghost predicate Stamped(jobs: map<Uuid, CacheJob>, now: int) {
    forall id :: id in jobs ==> StampsSound(jobs[id], now)
  }

  /** A lease lasts at most 90 seconds from its last heartbeat, and that heartbeat also refreshed
      the job. */
  predicate LeaseSound(lease: Lease, job: CacheJob) {
    job.stamps.Some? && lease.heartbeatAt <= job.stamps.value.lastAccessed && lease.expiresAt <= lease.heartbeatAt + LEASE_DURATION
  }

  ghost predicate LeasesSound(leases: map<LeaseKey, Lease>, sessions: map<Uuid, Session>, jobs: map<Uuid, CacheJob>) {
    && (forall s :: s in sessions ==> sessions[s].job in jobs)
    && (forall key :: key in leases ==>
          key.session in sessions && sessions[key.session].job in jobs && LeaseSound(leases[key], jobs[sessions[key.session].job]))
  }

  /** Whoever plays, plays from a ready job. */
  ghost predicate PlaysReady(leases: map<LeaseKey, Lease>, sessions: map<Uuid, Session>, jobs: map<Uuid, CacheJob>, now: int) {
    forall key :: key in leases && LeaseActive(leases[key], now) ==>
      key.session in sessions && sessions[key.session].job in jobs && jobs[sessions[key.session].job].status == Ready
  }

  ghost predicate Tokens(jobs: map<Uuid, CacheJob>, binding: Option<Uuid>, issued: set<Uuid>) {
    && (forall id :: id in jobs && jobs[id].claim.Some? ==> jobs[id].claim.value.token in issued)
    && (forall id :: id in jobs && jobs[id].binding.Some? ==> jobs[id].binding.value in issued)
    && (binding.Some? ==> binding.value in issued)
  }

  // Cleanup attempts: numbered 1..k per job, at most one running, busy ones below the limit.

  predicate SameNo(a: Attempt, b: Attempt) {
    a.job == b.job && a.no == b.no
  }

  predicate BothRunning(a: Attempt, b: Attempt) {
    a.job == b.job && a.status == AttemptRunning && b.status == AttemptRunning
  }

  ghost predicate HasNo(attempts: map<Uuid, Attempt>, job: Uuid, no: int) {
    exists a :: a in attempts && attempts[a].job == job && attempts[a].no == no
  }

  ghost predicate AttemptsSound(attempts: map<Uuid, Attempt>) {
    && (forall a :: a in attempts ==> attempts[a].no >= 1)
    && (forall a :: a in attempts && attempts[a].busy ==> attempts[a].no < BUSY_MAX_ATTEMPTS && attempts[a].status == AttemptFailed)
    && (forall a, b :: a in attempts && b in attempts && SameNo(attempts[a], attempts[b]) ==> a == b)
    && (forall a, b :: a in attempts && b in attempts && BothRunning(attempts[a], attempts[b]) ==> a == b)
    && (forall a :: a in attempts && attempts[a].no > 1 ==> HasNo(attempts, attempts[a].job, attempts[a].no - 1))
  }

  ghost predicate Inv(db: Db) {
    && Admission(db.jobs) && Bound(db.jobs, db.binding) && OnePerSource(db.jobs)
    && Keyed(db.requests, db.jobs) && DirectoriesDistinct(db.jobs)
    && Stamped(db.jobs, db.now) && LeasesSound(db.leases, db.sessions, db.jobs)
    && PlaysReady(db.leases, db.sessions, db.jobs, db.now)
    && Tokens(db.jobs, db.binding, db.issued) && AttemptsSound(db.attempts)
  }

  // ---------------------------------------------------------------- changing one job's row

  predicate SameJob(a: CacheJob, b: CacheJob) {
    a.movie == b.movie && a.source == b.source && a.binding == b.binding && a.dirName == b.dirName && a.createdAt == b.createdAt
  }

  /** The conditions under which a row may replace another. */
  ghost predicate GoodRow(db: Db, id: Uuid, row: CacheJob) {
    && id in db.jobs
    && var job := db.jobs[id];
    && SameJob(job, row) && StatusClass(row)
    && (row.capacity == QueuedClass ==> job.capacity == QueuedClass)
    && (row.capacity == RunningClass ==> job.capacity == RunningClass || |OfClass(db.jobs, RunningClass)| < RUNNING_CAPACITY)
    && (row.capacity != Released ==> job.capacity != Released)
    && StampsSound(row, db.now)
    && (job.stamps.Some? ==> row.stamps.Some? && job.stamps.value.lastAccessed <= row.stamps.value.lastAccessed)
    && (job.status == Ready && row.status != Ready ==> !HasActiveLease(db, id))
    && Dated(job, row, db.now)
  }

  /** A row's status only changes together with its update instant. */
  predicate Dated(job: CacheJob, row: CacheJob, now: int) {
    row.updatedAt == now || (row.updatedAt == job.updatedAt && row.status == job.status)
  }

  /** Every row was kept, replaced by a good one, or lost its binding after its release. */
  ghost predicate RowsStep(db: Db, jobs': map<Uuid, CacheJob>) {
    forall id :: id in db.jobs ==> id in jobs' && RowStep(db, id, jobs'[id])
  }

  ghost predicate RowStep(db: Db, id: Uuid, row: CacheJob)
    requires id in db.jobs
  {
    GoodRow(db, id, row) || (db.jobs[id].capacity == Released && row == db.jobs[id].(binding := None))
  }

  lemma RowKeepsAdmission(db: Db, id: Uuid, row: CacheJob)
    requires Admission(db.jobs) && GoodRow(db, id, row)
    ensures Admission(db.jobs[id := row])
  {
    hide HasActiveLease, SameJob, StampsSound;
    var jobs' := db.jobs[id := row];
    SubsetSize(OfClass(jobs', QueuedClass), OfClass(db.jobs, QueuedClass));
    if row.capacity == RunningClass {
      assert OfClass(jobs', RunningClass) == OfClass(db.jobs, RunningClass) + {id};
    } else {
      SubsetSize(OfClass(jobs', RunningClass), OfClass(db.jobs, RunningClass));
    }
  }

  lemma RowKeepsOwnership(db: Db, id: Uuid, row: CacheJob)
    requires Bound(db.jobs, db.binding) && OnePerSource(db.jobs) && Keyed(db.requests, db.jobs) && DirectoriesDistinct(db.jobs)
    requires GoodRow(db, id, row)
    ensures var jobs' := db.jobs[id := row];
            Bound(jobs', db.binding) && OnePerSource(jobs') && Keyed(db.requests, jobs') && DirectoriesDistinct(jobs')
  {
    hide HasActiveLease, StatusClass, StampsSound;
    var jobs' := db.jobs[id := row];
    forall a, b | a in jobs' && b in jobs' && Rivals(jobs'[a], jobs'[b]) ensures a == b {
      assert Rivals(db.jobs[a], db.jobs[b]);
    }
    forall a, b | a in jobs' && b in jobs' && SameDirectory(jobs'[a], jobs'[b]) ensures a == b {
      assert SameDirectory(db.jobs[a], db.jobs[b]);
    }
  }

  lemma RowKeepsLeases(db: Db, id: Uuid, row: CacheJob)
    requires Stamped(db.jobs, db.now) && LeasesSound(db.leases, db.sessions, db.jobs)
    requires PlaysReady(db.leases, db.sessions, db.jobs, db.now) && GoodRow(db, id, row)
    ensures var jobs' := db.jobs[id := row];
            && Stamped(jobs', db.now) && LeasesSound(db.leases, db.sessions, jobs')
            && PlaysReady(db.leases, db.sessions, jobs', db.now)
  {
    hide StatusClass, StampsSound, SameJob;
  }

  lemma RowKeepsTokens(db: Db, id: Uuid, row: CacheJob, issued: set<Uuid>)
    requires Tokens(db.jobs, db.binding, db.issued) && GoodRow(db, id, row)
    requires db.issued <= issued && (row.claim.Some? ==> row.claim.value.token in issued)
    ensures Tokens(db.jobs[id := row], db.binding, issued)
  {
    hide HasActiveLease, StatusClass, StampsSound;
  }

  lemma RowKeepsInv(db: Db, id: Uuid, row: CacheJob, issued: set<Uuid>)
    requires Inv(db) && GoodRow(db, id, row)
    requires db.issued <= issued && (row.claim.Some? ==> row.claim.value.token in issued)
    ensures Inv(WithJob(db, id, row).(issued := issued))
    ensures RowsStep(db, WithJob(db, id, row).jobs)
  {
    RowsUnchanged(db);
    hide Admission, Bound, OnePerSource, Keyed, DirectoriesDistinct, Stamped, LeasesSound, PlaysReady, Tokens, AttemptsSound, GoodRow;
    RowKeepsAdmission(db, id, row);
    RowKeepsOwnership(db, id, row);
    RowKeepsLeases(db, id, row);
    RowKeepsTokens(db, id, row, issued);
  }

  /** What the invariant says about one row. */
  lemma RowFacts(db: Db, id: Uuid)
    requires Inv(db) && id in db.jobs
    ensures StatusClass(db.jobs[id]) && StampsSound(db.jobs[id], db.now)
    ensures db.jobs[id].claim.Some? ==> db.jobs[id].claim.value.token in db.issued
    ensures db.jobs[id].status != Ready ==> !HasActiveLease(db, id)
    ensures db.jobs[id].capacity != Released ==> db.jobs[id].binding.Some? && db.jobs[id].binding == db.binding
  {
    hide OnePerSource, Keyed, DirectoriesDistinct, LeasesSound, AttemptsSound, StampsSound, StatusClass;
  }

  lemma RowsUnchanged(db: Db)
    requires Inv(db)
    ensures RowsStep(db, db.jobs)
  {
    hide Inv, StatusClass, StampsSound, HasActiveLease;
    forall id | id in db.jobs ensures RowStep(db, id, db.jobs[id]) {
      RowFacts(db, id);
    }
  }
}
