/** The cache lifecycle as a transition system: admission, the worker pipeline, cancellation,
    selection, playback leases and cleanup, over one database of rows. */
module CacheModel {
  import opened Wrappers

  type Uuid = nat

  // Instants and durations are integers counting microseconds.
  const SECOND: int := 1_000_000
  const HOUR: int := 3_600 * SECOND

  const RUNNING_CAPACITY: nat := 2
  const QUEUED_CAPACITY: nat := 10
  const READY_CAPACITY: nat := 20
  const LEASE_DURATION: int := 90 * SECOND
  const PLAYBACK_SESSION_DURATION: int := 12 * HOUR
  const CLEANUP_CLAIM_LEASE: int := 120 * SECOND
  const WORKER_CLAIM_LEASE: int := 90 * SECOND
  const OFFLINE_POLL_DELAY: int := 2 * SECOND
  const BUSY_MAX_ATTEMPTS: nat := 60

  // ---------------------------------------------------------------- job states

  datatype Status =
    | Queued | Submitting | Offlining | SubmitUncertain | Resolving | AwaitingSelection | Ready
    | Cancelling | Cleaning | CleanupFailed | Failed | Cleaned | Detached

  datatype Capacity = QueuedClass | RunningClass | ReadyClass | Released

  /** The class of every status but `Cancelling`, which keeps the class it came from. */
  function CapacityOf(status: Status): Capacity
    requires status != Cancelling
  {
    match status
    case Queued => QueuedClass
    case Submitting | Offlining | SubmitUncertain | Resolving => RunningClass
    case AwaitingSelection | Ready | Cleaning | CleanupFailed => ReadyClass
    case Failed | Cleaned | Detached => Released
  }

  function Successors(status: Status): set<Status> {
    match status
    case Queued => {Submitting, Cancelling, Failed}
    case Submitting => {Offlining, SubmitUncertain, Cancelling, Failed, Detached}
    case Offlining => {Resolving, Cancelling, Failed, Detached}
    case SubmitUncertain => {Cancelling}
    case Resolving => {AwaitingSelection, Ready, Cancelling, Failed, Detached}
    case AwaitingSelection => {Ready, Cleaning, Failed, Detached}
    case Ready => {Cleaning, Failed, Detached}
    case Cancelling => {Cleaning, Failed, Detached}
    case Cleaning => {Cleaned, CleanupFailed, Failed, Detached}
    case CleanupFailed => {Cleaning, Failed, Detached}
    case Failed | Cleaned | Detached => {}
  }

  predicate Materialized(status: Status) {
    status == AwaitingSelection || status == Ready
  }

  predicate Cancellable(status: Status) {
    status == Queued || status == Submitting || status == Offlining || status == SubmitUncertain || status == Resolving
  }

  // ---------------------------------------------------------------- rows

  /** The claim columns, set and cleared together; a token is drawn afresh for each claim, so it
      also stands for the worker that drew it. */
  datatype Claim = Claim(token: Uuid, expiresAt: int)

  /** The lifecycle timestamps, null or set together. */
  datatype Stamps = Stamps(readyAt: int, lastAccessed: int, expiresAt: int)

  datatype CleanupReason = CancelledByUser | Manual | Ttl | OverCapacity

  datatype CacheJob = CacheJob(
    movie: Uuid, source: Uuid, binding: Option<Uuid>, dirName: string, createdAt: int,
    status: Status, capacity: Capacity, taskDir: Option<string>, submitStarted: bool, infoHash: Option<string>,
    stamps: Option<Stamps>, claim: Option<Claim>, reason: Option<CleanupReason>, updatedAt: int)

  datatype AttemptStatus = AttemptRunning | AttemptSucceeded | AttemptFailed | AttemptDetached

  datatype Attempt = Attempt(job: Uuid, no: nat, status: AttemptStatus, busy: bool)

  datatype Session = Session(job: Uuid, admin: Uuid, expiresAt: int, revoked: bool)

  datatype LeaseKey = LeaseKey(session: Uuid, client: Uuid)

  datatype Lease = Lease(heartbeatAt: int, expiresAt: int, endedAt: Option<int>)

  datatype PlayRequest = PlayRequest(movie: Uuid, source: Uuid, job: Uuid)

  /** `movieOf` is the movie each source currently belongs to. `issued` holds every claim token and every binding id ever drawn. */
  datatype Db = Db(
    jobs: map<Uuid, CacheJob>, attempts: map<Uuid, Attempt>, sessions: map<Uuid, Session>,
    leases: map<LeaseKey, Lease>, requests: map<string, PlayRequest>, movieOf: map<Uuid, Uuid>,
    binding: Option<Uuid>, issued: set<Uuid>, now: int)

  const EMPTY: Db := Db(map[], map[], map[], map[], map[], map[], None, {}, 0)

  datatype CleanupTicket = CleanupTicket(job: Uuid, attempt: Uuid, attemptNo: nat, token: Uuid)

  datatype Problem =
    | IdempotencyConflict | StateConflict | BindingRequired | SourceRefused | QueueFull | NotFound
    | ConfirmationRequired | ActiveLease | ClaimLost | RunningFull | IllegalTransition | Invalid

  datatype Reply =
    | Admitted(job: Uuid, created: bool)
    | Done
    | Nothing
    | Claimed(ticket: CleanupTicket)
    | Refused(problem: Problem)

  // ---------------------------------------------------------------- counting and moving

  function OfClass(jobs: map<Uuid, CacheJob>, capacity: Capacity): set<Uuid> {
    set id | id in jobs && jobs[id].capacity == capacity
  }

  function CleaningJobs(jobs: map<Uuid, CacheJob>): set<Uuid> {
    set id | id in jobs && jobs[id].status == Cleaning
  }

  /** Move a job along a legal edge; its class follows its status. */
  function Moved(job: CacheJob, target: Status): Option<CacheJob> {
    if target !in Successors(job.status) then None
    else Some(job.(status := target, capacity := if target == Cancelling then job.capacity else CapacityOf(target)))
  }

  predicate Available(job: CacheJob, now: int) {
    job.claim == None || job.claim.value.expiresAt <= now
  }

  predicate LeaseActive(lease: Lease, now: int) {
    lease.endedAt == None && lease.expiresAt > now
  }

  /** Whether some client is playing from a job. */
  predicate HasActiveLease(db: Db, job: Uuid) {
    exists key :: key in db.leases && key.session in db.sessions && db.sessions[key.session].job == job
                  && LeaseActive(db.leases[key], db.now)
  }

  // ---------------------------------------------------------------- timestamps

  predicate ValidTtl(hours: int) {
    1 <= hours <= 168
  }

  function InitialStamps(stamps: Option<Stamps>, now: int, ttl: int): Stamps {
    match stamps
    case None => Stamps(now, now, now + ttl * HOUR)
    case Some(s) => s
  }

  function RefreshedStamps(stamps: Stamps, now: int, ttl: int): Stamps {
    Stamps(stamps.readyAt, now, now + ttl * HOUR)
  }

  function Min(a: int, b: int): int {
    if a <= b then a else b
  }

  // ---------------------------------------------------------------- admission

  predicate Blocks(job: CacheJob, source: Uuid, binding: Uuid) {
    job.source == source && job.binding == Some(binding) && job.capacity != Released
  }

  predicate NameUnused(jobs: map<Uuid, CacheJob>, binding: Option<Uuid>, dirName: string) {
    forall k :: k in jobs && jobs[k].binding == binding ==> jobs[k].dirName != dirName
  }

  /** A source must belong to the movie; `sourceOk` stands for the other checks before admission, the
      binding being active among them. The directory name is drawn until no job of the binding has
      it. */
  ghost function Create(db: Db, movie: Uuid, source: Uuid, key: string, sourceOk: bool, id: Uuid, dirName: string): (Db, Reply) {
    if key in db.requests then
      var prior := db.requests[key];
      if prior.movie != movie || prior.source != source then (db, Refused(IdempotencyConflict))
      else if prior.job !in db.jobs then (db, Refused(StateConflict))
      else (db, Admitted(prior.job, false))
    else if db.binding == None then (db, Refused(BindingRequired))
    else if source !in db.movieOf || db.movieOf[source] != movie || !sourceOk then (db, Refused(SourceRefused))
    else if existing :| existing in db.jobs && Blocks(db.jobs[existing], source, db.binding.value) then
      (db.(requests := db.requests[key := PlayRequest(movie, source, existing)]), Admitted(existing, false))
    else if |OfClass(db.jobs, RunningClass)| < RUNNING_CAPACITY then
      (Insert(db, movie, source, key, id, dirName, Submitting), Admitted(id, true))
    else if |OfClass(db.jobs, QueuedClass)| < QUEUED_CAPACITY then
      (Insert(db, movie, source, key, id, dirName, Queued), Admitted(id, true))
    else (db, Refused(QueueFull))
  }

  function NewCacheJob(db: Db, movie: Uuid, source: Uuid, dirName: string, status: Status): CacheJob
    requires status != Cancelling
  {
    CacheJob(movie, source, db.binding, dirName, db.now, status, CapacityOf(status), None, false, None, None, None, None, db.now)
  }

  function Insert(db: Db, movie: Uuid, source: Uuid, key: string, id: Uuid, dirName: string, status: Status): Db
    requires status != Cancelling
  {
    db.(jobs := db.jobs[id := NewCacheJob(db, movie, source, dirName, status)],
        requests := db.requests[key := PlayRequest(movie, source, id)])
  }

  function WithJob(db: Db, id: Uuid, job: CacheJob): Db {
    db.(jobs := db.jobs[id := job])
  }

  /** The capacity service's own transition: guarded by the running capacity, blind to leases. */
  function GuardedTransition(db: Db, id: Uuid, target: Status): (Db, Reply) {
    if id !in db.jobs then (db, Refused(NotFound))
    else
      var job := db.jobs[id];
      match Moved(job, target)
      case None => (db, Refused(IllegalTransition))
      case Some(next) =>
        if next.capacity == RunningClass && job.capacity != RunningClass && |OfClass(db.jobs, RunningClass)| >= RUNNING_CAPACITY
        then (db, Refused(RunningFull))
        else (WithJob(db, id, next.(updatedAt := db.now)), Done)
  }

  function CancelledRow(job: CacheJob, now: int): Option<CacheJob> {
    var mkdirInFlight := job.status == Submitting && job.taskDir == None && !job.submitStarted && job.infoHash == None && job.claim != None;
    match Moved(job.(reason := Some(CancelledByUser)), Cancelling)
    case None => None
    case Some(cancelling) =>
      var kept := if mkdirInFlight then cancelling else cancelling.(claim := None);
      var cleaning := kept.(status := Cleaning, capacity := ReadyClass);
      var last :=
        if job.taskDir == None && !job.submitStarted && job.infoHash == None && !mkdirInFlight
        then kept.(status := Cleaned, capacity := Released)
        else if job.taskDir != None && !job.submitStarted then cleaning
        else kept;
      Some(last.(updatedAt := now))
  }

  function Cancel(db: Db, id: Uuid, confirmed: bool): (Db, Reply) {
    if !confirmed then (db, Refused(ConfirmationRequired))
    else if id !in db.jobs then (db, Refused(NotFound))
    else
      var job := db.jobs[id];
      if job.status == Cancelling || job.status == Cleaning then
        (WithJob(db, id, if job.reason == None then job.(reason := Some(CancelledByUser)) else job), Done)
      else if !Cancellable(job.status) then (db, Refused(StateConflict))
      else match CancelledRow(job, db.now)
        case None => (db, Refused(StateConflict))
        case Some(row) => (WithJob(db, id, row), Done)
  }

  /** `valid` says that the chosen media are exactly one whole valid candidate. */
  function SelectMedia(db: Db, id: Uuid, valid: bool, ttl: int): (Db, Reply) {
    if id !in db.jobs then (db, Refused(NotFound))
    else
      var job := db.jobs[id];
      if job.status != AwaitingSelection || !valid then (db, Refused(StateConflict))
      else
        (WithJob(db, id, job.(status := Ready, capacity := ReadyClass,
                              stamps := Some(InitialStamps(job.stamps, db.now, ttl)), updatedAt := db.now)), Done)
  }

  // ---------------------------------------------------------------- the worker pipeline

  predicate PipelineClaimable(job: CacheJob, now: int) {
    || ((job.status == Submitting || job.status == Offlining || job.status == Cancelling)
        && (Available(job, now) || (job.status == Offlining && job.updatedAt <= now - OFFLINE_POLL_DELAY)))
    || (job.status == Resolving && Available(job, now))
  }

  /** Which row the pipeline's queries return is left open; a queued job starts only below the
      running capacity. */
  function PipelineClaim(db: Db, id: Uuid, token: Uuid): (Db, Reply) {
    if id !in db.jobs then (db, Nothing)
    else
      var job := db.jobs[id];
      if PipelineClaimable(job, db.now) then
        (WithJob(db, id, PipelineClaimed(job, token, db.now)).(issued := db.issued + {token}), Done)
      else if job.status == Queued && |OfClass(db.jobs, RunningClass)| < RUNNING_CAPACITY then
        (WithJob(db, id, PipelineClaimed(job.(status := Submitting, capacity := RunningClass), token, db.now)).(issued := db.issued + {token}),
         Done)
      else (db, Nothing)
  }

  function PipelineClaimed(job: CacheJob, token: Uuid, now: int): CacheJob {
    job.(claim := Some(Claim(token, now + WORKER_CLAIM_LEASE)), updatedAt := now)
  }

  datatype OfflineStatus = OfflineCompleted | OfflineFailed | OfflineProgress

  /** What a pipeline worker writes under its claim. */
  datatype Effect =
    | SaveDirectory(cid: string)
    | MarkSubmitStarted
    | SaveSubmission(hash: string)
    | MarkUncertain
    | OfflineSnapshot(hash: string, status: OfflineStatus)
    | CompleteResolution(autoSelected: bool, ttl: int)
    | CompleteCancel
    | SaveCancelTarget(hash: string)
    | FailJob
    | Defer(delay: int)
    | DetachJob
    | RenewClaim

  function Unclaimed(job: Option<CacheJob>, now: int): Option<CacheJob> {
    match job case None => None case Some(j) => Some(j.(claim := None, updatedAt := now))
  }

  function Extended(job: CacheJob, expiresAt: int, now: int): CacheJob
    requires job.claim.Some?
  {
    job.(claim := Some(Claim(job.claim.value.token, expiresAt)), updatedAt := now)
  }

  /** The row after an effect, or none when the worker's preconditions or the edge are refused. */
  function Applied(job: CacheJob, effect: Effect, now: int): Option<CacheJob>
    requires job.claim.Some?
  {
    var renewed := Extended(job, now + WORKER_CLAIM_LEASE, now);
    match effect
    case SaveDirectory(cid) =>
      if job.taskDir != None && job.taskDir != Some(cid) then None else Some(renewed.(taskDir := Some(cid)))
    case MarkSubmitStarted =>
      if job.taskDir == None || job.submitStarted then None else Some(renewed.(submitStarted := true))
    case SaveSubmission(hash) =>
      if job.taskDir == None || !job.submitStarted then None
      else Unclaimed(Moved(job.(infoHash := Some(hash)), Offlining), now)
    case MarkUncertain =>
      if job.taskDir == None || !job.submitStarted then None
      else Unclaimed(Moved(job.(infoHash := None), SubmitUncertain), now)
    case OfflineSnapshot(hash, status) =>
      if job.infoHash != Some(hash) then None
      else (match status
            case OfflineCompleted => Unclaimed(Moved(job, Resolving), now)
            case OfflineFailed => Unclaimed(Moved(job, Failed), now)
            case OfflineProgress => Some(renewed))
    case CompleteResolution(autoSelected, ttl) =>
      if job.status != Resolving then None
      else Unclaimed(Moved(job.(stamps := Some(InitialStamps(job.stamps, now, ttl))),
                           if autoSelected then Ready else AwaitingSelection), now)
    case CompleteCancel =>
      (match Moved(job.(reason := Some(CancelledByUser)), Cleaning)
       case None => None
       case Some(cleaning) => Unclaimed(if job.taskDir != None then Some(cleaning) else Moved(cleaning, Cleaned), now))
    case SaveCancelTarget(hash) =>
      if job.status != Cancelling then None else Some(renewed.(infoHash := Some(hash)))
    case FailJob => Unclaimed(Moved(job, Failed), now)
    case Defer(delay) => Some(Extended(job, now + Min(delay, 24 * HOUR), now))
    case DetachJob => if job.status != Resolving then None else Unclaimed(Moved(job, Detached), now)
    case RenewClaim => Some(renewed)
  }

  function Work(db: Db, id: Uuid, token: Uuid, effect: Effect): (Db, Reply) {
    if id !in db.jobs || db.jobs[id].claim == None || db.jobs[id].claim.value.token != token
       || db.jobs[id].claim.value.expiresAt <= db.now
    then (db, Refused(ClaimLost))
    else match Applied(db.jobs[id], effect, db.now)
      case None => (db, Refused(ClaimLost))
      case Some(row) => (WithJob(db, id, row), Done)
  }

  // ---------------------------------------------------------------- playback

  function Touched(job: CacheJob, now: int, ttl: int): CacheJob {
    job.(stamps := Some(RefreshedStamps(InitialStamps(job.stamps, now, ttl), now, ttl)), updatedAt := now)
  }

  function SessionRows(ids: seq<Uuid>, session: Session): map<Uuid, Session> {
    map id | id in ids :: session
  }

  function LeaseRows(ids: seq<Uuid>, client: Uuid, lease: Lease): map<LeaseKey, Lease> {
    map id | id in ids :: LeaseKey(id, client) := lease
  }

  /** One session and one lease per media item; `ids` are the new sessions, in media order, none when the
      requested item is not among the selected media. */
  function Play(db: Db, job: Uuid, admin: Uuid, client: Uuid, ids: seq<Uuid>, ttl: int): (Db, Reply) {
    if job !in db.jobs then (db, Refused(NotFound))
    else if db.jobs[job].status != Ready || ids == [] then (db, Refused(StateConflict))
    else
      var expiresAt := db.now + PLAYBACK_SESSION_DURATION;
      var lease := Lease(db.now, Min(db.now + LEASE_DURATION, expiresAt), None);
      (db.(jobs := db.jobs[job := Touched(db.jobs[job], db.now, ttl)],
           sessions := db.sessions + SessionRows(ids, Session(job, admin, expiresAt, false)),
           leases := db.leases + LeaseRows(ids, client, lease)),
       Done)
  }

  predicate SessionUsable(db: Db, session: Uuid) {
    && session in db.sessions && !db.sessions[session].revoked && db.sessions[session].expiresAt > db.now
    && db.sessions[session].job in db.jobs && db.jobs[db.sessions[session].job].status == Ready
  }

  /** Refresh the job and give the client a running lease. */
  function Leased(db: Db, session: Uuid, client: Uuid, ttl: int): Db
    requires SessionUsable(db, session)
  {
    var s := db.sessions[session];
    db.(jobs := db.jobs[s.job := Touched(db.jobs[s.job], db.now, ttl)],
        leases := db.leases[LeaseKey(session, client) := Lease(db.now, Min(db.now + LEASE_DURATION, s.expiresAt), None)])
  }

  function Acquire(db: Db, session: Uuid, client: Uuid, ttl: int): (Db, Reply) {
    if !SessionUsable(db, session) then (db, Refused(StateConflict)) else (Leased(db, session, client, ttl), Done)
  }

  function Heartbeat(db: Db, session: Uuid, client: Uuid, admin: Uuid, playing: bool, ttl: int): (Db, Reply) {
    var key := LeaseKey(session, client);
    if !SessionUsable(db, session) || db.sessions[session].admin != admin || key !in db.leases then (db, Refused(StateConflict))
    else if !playing then (db.(leases := db.leases[key := db.leases[key].(endedAt := Some(db.now))]), Done)
    else (Leased(db, session, client, ttl), Done)
  }

  function EndLease(db: Db, session: Uuid, client: Uuid): (Db, Reply) {
    var key := LeaseKey(session, client);
    if key in db.leases && db.leases[key].endedAt == None then
      (db.(leases := db.leases[key := db.leases[key].(endedAt := Some(db.now))]), Done)
    else (db, Done)
  }

  // ---------------------------------------------------------------- cleanup

  function RequestCleanup(db: Db, id: Uuid): (Db, Reply) {
    if id !in db.jobs then (db, Refused(NotFound))
    else if HasActiveLease(db, id) then (db, Refused(ActiveLease))
    else
      var job := db.jobs[id];
      if job.status == Cleaning then (db, Done)
      else if job.status != AwaitingSelection && job.status != Ready && job.status != CleanupFailed then
        (db, Refused(StateConflict))
      else
        (WithJob(db, id, job.(reason := if job.reason == None then Some(Manual) else job.reason,
                              status := Cleaning, capacity := ReadyClass, claim := None, updatedAt := db.now)), Done)
  }

  /** Nobody holds it and nobody plays from it. */
  predicate Free(db: Db, id: Uuid) {
    id in db.jobs && Available(db.jobs[id], db.now) && !HasActiveLease(db, id)
  }

  predicate WaitingCleanup(db: Db, id: Uuid) {
    Free(db, id) && db.jobs[id].status == Cleaning
  }

  /** Jobs already being cleaned are taken in the order (last update, id). */
  predicate WaitsBefore(a: CacheJob, aId: Uuid, b: CacheJob, bId: Uuid) {
    a.updatedAt < b.updatedAt || (a.updatedAt == b.updatedAt && aId < bId)
  }

  predicate Evictable(db: Db, id: Uuid) {
    Free(db, id) && Materialized(db.jobs[id].status)
  }

  predicate Due(job: CacheJob, now: int) {
    job.stamps.Some? && job.stamps.value.expiresAt <= now
  }

  /** More ready-class jobs than the target, not counting those already being cleaned. */
  predicate OverTarget(db: Db) {
    |OfClass(db.jobs, ReadyClass)| - |CleaningJobs(db.jobs)| > READY_CAPACITY
  }

  predicate Eligible(db: Db, id: Uuid) {
    Evictable(db, id) && (Due(db.jobs[id], db.now) || OverTarget(db))
  }

  /** The lifecycle order: last access, readiness, creation, id, with missing instants first. */
  predicate LruBefore(a: CacheJob, aId: Uuid, b: CacheJob, bId: Uuid) {
    match (a.stamps, b.stamps)
    case (None, Some(_)) => true
    case (Some(_), None) => false
    case (None, None) => a.createdAt < b.createdAt || (a.createdAt == b.createdAt && aId < bId)
    case (Some(s), Some(t)) =>
      || s.lastAccessed < t.lastAccessed
      || (s.lastAccessed == t.lastAccessed && s.readyAt < t.readyAt)
      || (s.lastAccessed == t.lastAccessed && s.readyAt == t.readyAt && a.createdAt < b.createdAt)
      || (s.lastAccessed == t.lastAccessed && s.readyAt == t.readyAt && a.createdAt == b.createdAt && aId < bId)
  }

  /** The eviction query's order: jobs past their time to live first, then least recently used. */
  predicate EvictsBefore(db: Db, a: Uuid, b: Uuid)
    requires a in db.jobs && b in db.jobs
  {
    if Due(db.jobs[a], db.now) != Due(db.jobs[b], db.now) then Due(db.jobs[a], db.now)
    else LruBefore(db.jobs[a], a, db.jobs[b], b)
  }

  predicate NextWaiting(db: Db, id: Uuid) {
    WaitingCleanup(db, id)
    && forall k :: k in db.jobs && WaitingCleanup(db, k) && k != id ==> WaitsBefore(db.jobs[id], id, db.jobs[k], k)
  }

  predicate NextEvicted(db: Db, id: Uuid) {
    Eligible(db, id) && forall k :: k in db.jobs && Eligible(db, k) && k != id ==> EvictsBefore(db, id, k)
  }

  /** The job a cleanup claim acts on, if any. */
  ghost function Chosen(db: Db): Option<Uuid> {
    if id :| id in db.jobs && NextWaiting(db, id) then Some(id)
    else if id :| id in db.jobs && NextEvicted(db, id) then Some(id)
    else None
  }

  function AttemptsOf(attempts: map<Uuid, Attempt>, job: Uuid): set<Uuid> {
    set a | a in attempts && attempts[a].job == job
  }

  predicate IsLastAttempt(attempts: map<Uuid, Attempt>, job: Uuid, a: Uuid) {
    a in attempts && attempts[a].job == job
    && forall k :: k in attempts && attempts[k].job == job ==> attempts[k].no <= attempts[a].no
  }

  ghost function NextAttemptNo(attempts: map<Uuid, Attempt>, job: Uuid): nat {
    if a :| a in attempts && IsLastAttempt(attempts, job, a) then attempts[a].no + 1 else 1
  }

  /** A claim ends the job's previous attempt, if it was still running. */
  function Superseded(attempts: map<Uuid, Attempt>, job: Uuid): map<Uuid, Attempt> {
    map a | a in attempts ::
      if attempts[a].job == job && attempts[a].status == AttemptRunning then attempts[a].(status := AttemptFailed) else attempts[a]
  }

  function ReasonFor(job: CacheJob, now: int): Option<CleanupReason> {
    if Materialized(job.status) then Some(if Due(job, now) then Ttl else OverCapacity) else job.reason
  }

  /** A job without a binding or a directory cannot be cleaned remotely and is detached. */
  function DetachedUnowned(job: CacheJob, now: int): CacheJob {
    var reason := ReasonFor(job, now);
    job.(reason := if reason == None then Some(Manual) else reason,
         status := Detached, capacity := Released, claim := None, updatedAt := now)
  }

  function CleanupClaimed(job: CacheJob, token: Uuid, now: int): CacheJob {
    job.(reason := ReasonFor(job, now), status := Cleaning, capacity := ReadyClass,
         claim := Some(Claim(token, now + CLEANUP_CLAIM_LEASE)), updatedAt := now)
  }

  ghost function CleanupClaim(db: Db, token: Uuid, attempt: Uuid): (Db, Reply) {
    match Chosen(db)
    case None => (db, Nothing)
    case Some(id) =>
      var job := db.jobs[id];
      if job.binding == None || job.taskDir == None then (WithJob(db, id, DetachedUnowned(job, db.now)), Nothing)
      else
        var no := NextAttemptNo(db.attempts, id);
        (db.(jobs := db.jobs[id := CleanupClaimed(job, token, db.now)],
             issued := db.issued + {token},
             attempts := Superseded(db.attempts, id)[attempt := Attempt(id, no, AttemptRunning, false)]),
         Claimed(CleanupTicket(id, attempt, no, token)))
  }

  predicate CleanupHeld(db: Db, t: CleanupTicket) {
    && t.job in db.jobs && t.attempt in db.attempts
    && db.jobs[t.job].status == Cleaning
    && db.jobs[t.job].claim.Some? && db.jobs[t.job].claim.value.token == t.token
    && db.jobs[t.job].claim.value.expiresAt > db.now
    && db.attempts[t.attempt].job == t.job && db.attempts[t.attempt].status == AttemptRunning
  }

  datatype Outcome = CleanupSucceeded | CleanupFailure | CleanupBusy | CleanupDetached

  /** How the worker's four endings move the job. A busy ending keeps it in cleaning. */
  function EndedRow(job: CacheJob, outcome: Outcome, now: int): CacheJob {
    var free := job.(claim := None, updatedAt := now);
    match outcome
    case CleanupSucceeded =>
      free.(status := Cleaned, capacity := Released, reason := if job.reason == None then Some(Manual) else job.reason)
    case CleanupFailure => free.(status := CleanupFailed, capacity := ReadyClass)
    case CleanupBusy => free
    case CleanupDetached => free.(status := Detached, capacity := Released)
  }

  function EndedAttempt(attempt: Attempt, outcome: Outcome): Attempt {
    match outcome
    case CleanupSucceeded => attempt.(status := AttemptSucceeded)
    case CleanupFailure => attempt.(status := AttemptFailed)
    case CleanupBusy => attempt.(status := AttemptFailed, busy := true)
    case CleanupDetached => attempt.(status := AttemptDetached)
  }

  function EndCleanup(db: Db, t: CleanupTicket, outcome: Outcome): (Db, Reply) {
    if !CleanupHeld(db, t) then (db, Refused(ClaimLost))
    else
      (db.(jobs := db.jobs[t.job := EndedRow(db.jobs[t.job], outcome, db.now)],
           attempts := db.attempts[t.attempt := EndedAttempt(db.attempts[t.attempt], outcome)]), Done)
  }

  /** The worker's decision when the remote side stays busy. */
  function BusyOutcome(attemptNo: nat): Outcome {
    if attemptNo >= BUSY_MAX_ATTEMPTS then CleanupFailure else CleanupBusy
  }

  // ---------------------------------------------------------------- the binding

  /** Removing the binding needs every job released; their rows lose it. */
  function RemoveBinding(db: Db): (Db, Reply) {
    if exists id :: id in db.jobs && db.jobs[id].capacity != Released then (db, Refused(StateConflict))
    else (db.(binding := None, jobs := map id | id in db.jobs :: db.jobs[id].(binding := None)), Done)
  }

  // ---------------------------------------------------------------- runs

  datatype Action =
    | DoBind(binding: Uuid)
    | DoUnbind
    | DoAssign(source: Uuid, movie: Uuid)
    | DoCreate(movie: Uuid, source: Uuid, key: string, sourceOk: bool, id: Uuid, dirName: string)
    | DoTransition(id: Uuid, target: Status)
    | DoCancel(id: Uuid, confirmed: bool)
    | DoSelect(id: Uuid, valid: bool, ttl: int)
    | DoPipelineClaim(id: Uuid, token: Uuid)
    | DoWork(id: Uuid, token: Uuid, effect: Effect)
    | DoPlay(id: Uuid, admin: Uuid, client: Uuid, sessions: seq<Uuid>, ttl: int)
    | DoAcquire(session: Uuid, client: Uuid, ttl: int)
    | DoHeartbeat(session: Uuid, client: Uuid, admin: Uuid, playing: bool, ttl: int)
    | DoEndLease(session: Uuid, client: Uuid)
    | DoRequestCleanup(id: Uuid)
    | DoCleanupClaim(token: Uuid, attempt: Uuid)
    | DoEndCleanup(ticket: CleanupTicket, outcome: Outcome)
    | DoBusy(ticket: CleanupTicket)
    | DoTick(elapsed: int)

  /** New ids and tokens are fresh, a new directory name is unused under the binding, lifetimes are
      1..168 hours, tickets carry the number of their attempt and the clock does not run backwards.
      The capacity service's transition, which looks at no lease, is used on jobs nobody plays from,
      and the row checks refuse it a materialized status without timestamps. */
  ghost predicate Allowed(db: Db, a: Action) {
    match a
    case DoBind(binding) => db.binding == None && binding !in db.issued
    case DoCreate(_, _, _, _, id, dirName) =>
      id !in db.jobs && NameUnused(db.jobs, db.binding, dirName)
    case DoTransition(id, target) =>
      && !HasActiveLease(db, id)
      && (id in db.jobs && Materialized(target) ==> db.jobs[id].stamps.Some?)
    case DoSelect(_, _, ttl) => ValidTtl(ttl)
    case DoPipelineClaim(_, token) => token !in db.issued
    case DoWork(_, _, CompleteResolution(_, ttl)) => ValidTtl(ttl)
    case DoPlay(_, _, _, sessions, ttl) =>
      ValidTtl(ttl) && forall s :: s in sessions ==> s !in db.sessions && forall key :: key in db.leases ==> key.session != s
    case DoAcquire(_, _, ttl) => ValidTtl(ttl)
    case DoHeartbeat(_, _, _, _, ttl) => ValidTtl(ttl)
    case DoCleanupClaim(token, attempt) => token !in db.issued && attempt !in db.attempts
    case DoEndCleanup(t, outcome) => outcome != CleanupBusy && (t.attempt in db.attempts ==> db.attempts[t.attempt].no == t.attemptNo)
    case DoBusy(t) => t.attempt in db.attempts ==> db.attempts[t.attempt].no == t.attemptNo
    case DoTick(elapsed) => elapsed >= 0
    case _ => true
  }

  ghost function Step(db: Db, a: Action): Db {
    match a
    case DoBind(binding) => db.(binding := Some(binding), issued := db.issued + {binding})
    case DoUnbind => RemoveBinding(db).0
    case DoAssign(source, movie) => db.(movieOf := db.movieOf[source := movie])
    case DoCreate(movie, source, key, sourceOk, id, dirName) => Create(db, movie, source, key, sourceOk, id, dirName).0
    case DoTransition(id, target) => GuardedTransition(db, id, target).0
    case DoCancel(id, confirmed) => Cancel(db, id, confirmed).0
    case DoSelect(id, valid, ttl) => SelectMedia(db, id, valid, ttl).0
    case DoPipelineClaim(id, token) => PipelineClaim(db, id, token).0
    case DoWork(id, token, effect) => Work(db, id, token, effect).0
    case DoPlay(id, admin, client, sessions, ttl) => Play(db, id, admin, client, sessions, ttl).0
    case DoAcquire(session, client, ttl) => Acquire(db, session, client, ttl).0
    case DoHeartbeat(session, client, admin, playing, ttl) => Heartbeat(db, session, client, admin, playing, ttl).0
    case DoEndLease(session, client) => EndLease(db, session, client).0
    case DoRequestCleanup(id) => RequestCleanup(db, id).0
    case DoCleanupClaim(token, attempt) => CleanupClaim(db, token, attempt).0
    case DoEndCleanup(t, outcome) => EndCleanup(db, t, outcome).0
    case DoBusy(t) => EndCleanup(db, t, BusyOutcome(t.attemptNo)).0
    case DoTick(elapsed) => db.(now := db.now + elapsed)
  }

  ghost predicate AllowedRun(db: Db, actions: seq<Action>)
    decreases |actions|
  {
    actions == [] || (Allowed(db, actions[0]) && AllowedRun(Step(db, actions[0]), actions[1..]))
  }

  ghost function Run(db: Db, actions: seq<Action>): Db
    decreases |actions|
  {
    if actions == [] then db else Run(Step(db, actions[0]), actions[1..])
  }
}
