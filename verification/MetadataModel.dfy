/** The metadata job queue as a transition system. Each transaction of the queue, and the core
    import it fences, is one function from a database to the next one and a reply. */
module MetadataModel {
  import opened Wrappers

  type Uuid = nat

  // ---------------------------------------------------------------- rows

  datatype Stage = JavdbCore | Images | Dmm | ActorMap | Gfriends | Translation

  const OPTIONAL_STAGES: seq<Stage> := [Images, Dmm, ActorMap, Gfriends, Translation]
  const ALL_STAGES: seq<Stage> := [JavdbCore] + OPTIONAL_STAGES

  datatype StageStatus = StagePending | StageRunning | StageSucceeded | StageWarning | StageFailed | StageSkipped

  type StageTable = map<Stage, StageStatus>

  datatype Reason = ManualOrSearch | Ranking | Daily | Initial | History

  function PriorityFor(reason: Reason): int {
    match reason
    case ManualOrSearch => 10
    case Ranking => 20
    case Daily => 30
    case Initial => 40
    case History => 50
  }

  datatype RetryMode = Full | MissingEnrichment

  datatype JobStatus = Queued | Running | Completed | CompletedWithWarnings | Failed

  datatype Lease = Lease(owner: Uuid, expiresAt: int)

  datatype Job = Job(
    movie: Uuid, number: string, attemptNo: nat, parent: Option<Uuid>,
    retryMode: RetryMode, requested: seq<Stage>, createdAt: int,
    priority: int, reason: Reason, sortDate: Option<int>,
    status: JobStatus, claim: Option<Lease>, startedAt: Option<int>, finishedAt: Option<int>,
    failureCode: Option<string>, stages: StageTable)

  datatype CatalogState = RawOnly | MetadataQueued | MetadataRunning | CoreReady

  datatype Movie = Movie(number: string, state: CatalogState)

  /** `issued` holds every claim owner ever drawn, so that "fresh" has a meaning. */
  datatype Db = Db(movies: map<Uuid, Movie>, jobs: map<Uuid, Job>, paused: bool, issued: set<Uuid>, now: int)

  /** What a worker presents to act on a claimed job. */
  datatype Ticket = Ticket(job: Uuid, owner: Uuid)

  datatype Problem =
    | ResourceNotFound | JobNotFound | JobAlreadyActive | JobNotFailed | NoRetryableEnrichment
    | ClaimLost | StageConflict | CoreNotCommitted | MovieNotFound | NumberMismatch | IdentityConflict

  datatype Reply =
    | Enqueued(id: Uuid, created: bool)
    | JobState(id: Uuid, state: JobStatus)
    | Rescraped(id: Uuid, state: JobStatus, created: bool)
    | Claimed(ticket: Ticket, pending: seq<Stage>, hasWarnings: bool)
    | Idle
    | Done
    | Refused(problem: Problem)

  // ---------------------------------------------------------------- reading rows

  predicate Active(job: Job) {
    job.status == Queued || job.status == Running
  }

  predicate StageOpen(status: StageStatus) {
    status == StagePending || status == StageRunning
  }

  predicate StageWarned(status: StageStatus) {
    status == StageWarning || status == StageFailed
  }

  function StagesIn(stages: StageTable, wanted: StageStatus, order: seq<Stage>): seq<Stage> {
    if order == [] then []
    else (if order[0] in stages && stages[order[0]] == wanted then [order[0]] else []) + StagesIn(stages, wanted, order[1..])
  }

  predicate AnyOpen(stages: StageTable) {
    exists s :: s in stages && StageOpen(stages[s])
  }

  predicate AnyWarned(stages: StageTable) {
    exists s :: s in stages && StageWarned(stages[s])
  }

  /** A number's newest attempt. */
  predicate IsLatest(jobs: map<Uuid, Job>, number: string, id: Uuid) {
    && id in jobs && jobs[id].number == number
    && forall k :: k in jobs && jobs[k].number == number ==> jobs[k].attemptNo <= jobs[id].attemptNo
  }

  ghost function Latest(jobs: map<Uuid, Job>, number: string): Option<Uuid> {
    if id :| IsLatest(jobs, number, id) then Some(id) else None
  }

  ghost function NextAttempt(jobs: map<Uuid, Job>, number: string): nat {
    match Latest(jobs, number)
    case Some(id) => jobs[id].attemptNo + 1
    case None => 1
  }

  predicate NoActive(jobs: map<Uuid, Job>, number: string) {
    forall id :: id in jobs && jobs[id].number == number ==> !Active(jobs[id])
  }

  predicate Held(db: Db, t: Ticket) {
    t.job in db.jobs && db.jobs[t.job].status == Running
    && db.jobs[t.job].claim.Some? && db.jobs[t.job].claim.value.owner == t.owner
  }

  predicate HeldNow(db: Db, t: Ticket) {
    Held(db, t) && db.jobs[t.job].claim.value.expiresAt > db.now
  }

  // ---------------------------------------------------------------- stage plans

  /** The optional stages asked for, in plan order; empty, repeated or core requests are refused. */
  function ValidateEnrichment(stages: seq<Stage>): Option<seq<Stage>> {
    if stages == [] || (exists i, j :: 0 <= i < j < |stages| && stages[i] == stages[j]) || JavdbCore in stages then None
    else Some(Chosen(stages, OPTIONAL_STAGES))
  }

  function Chosen(wanted: seq<Stage>, order: seq<Stage>): seq<Stage> {
    if order == [] then [] else (if order[0] in wanted then [order[0]] else []) + Chosen(wanted, order[1..])
  }

  function StagePlan(mode: RetryMode, requested: seq<Stage>): StageTable {
    map s | s in ALL_STAGES :: if mode == Full || s in requested then StagePending else StageSkipped
  }

  function ResetRunning(stages: StageTable): StageTable {
    map s | s in stages :: if stages[s] == StageRunning then StagePending else stages[s]
  }

  // ---------------------------------------------------------------- writing rows

  function SetCatalog(movies: map<Uuid, Movie>, movie: Uuid, state: CatalogState): map<Uuid, Movie>
    requires movie in movies
  {
    if movies[movie].state == CoreReady then movies else movies[movie := movies[movie].(state := state)]
  }

  function NewJob(now: int, movie: Uuid, number: string, reason: Reason, sortDate: Option<int>,
                  mode: RetryMode, requested: seq<Stage>, attemptNo: nat, parent: Option<Uuid>): Job
  {
    Job(movie, number, attemptNo, parent, mode, requested, now,
        PriorityFor(reason), reason, sortDate, Queued, None, None, None, None, StagePlan(mode, requested))
  }

  function AddJob(db: Db, id: Uuid, job: Job): Db
    requires job.movie in db.movies
  {
    db.(jobs := db.jobs[id := job], movies := SetCatalog(db.movies, job.movie, MetadataQueued))
  }

  // ---------------------------------------------------------------- enqueueing

  ghost function Enqueue(db: Db, movie: Uuid, number: string, sortDate: Option<int>, reason: Reason, id: Uuid): (Db, Reply) {
    if movie !in db.movies || db.movies[movie].number != number then (db, Refused(ResourceNotFound))
    else match Latest(db.jobs, number)
      case Some(existing) => (db, Enqueued(existing, false))
      case None =>
        (AddJob(db, id, NewJob(db.now, movie, number, reason, sortDate, Full, [], 1, None)), Enqueued(id, true))
  }

  ghost function EnsureSearch(db: Db, movie: Uuid, number: string, sortDate: Option<int>, id: Uuid): (Db, Reply) {
    if movie !in db.movies || db.movies[movie].number != number then (db, Refused(ResourceNotFound))
    else match Latest(db.jobs, number)
      case None =>
        (AddJob(db, id, NewJob(db.now, movie, number, ManualOrSearch, sortDate, Full, [], 1, None)), JobState(id, Queued))
      case Some(existing) =>
        var job := db.jobs[existing];
        if db.movies[movie].state == CoreReady then (db, JobState(existing, Completed))
        else if job.status == Queued then
          (db.(jobs := db.jobs[existing := Promoted(job, ManualOrSearch, sortDate)]), JobState(existing, Queued))
        else if job.status == Running then (db, JobState(existing, Running))
        else (db, JobState(existing, Failed))
  }

  function Promoted(job: Job, reason: Reason, sortDate: Option<int>): Job {
    job.(priority := PriorityFor(reason), reason := reason, sortDate := if sortDate.Some? then sortDate else job.sortDate)
  }

  ghost function EnsureRanking(db: Db, movie: Uuid, number: string, sortDate: Option<int>, id: Uuid): (Db, Reply) {
    if movie !in db.movies || db.movies[movie].number != number then (db, Refused(ResourceNotFound))
    else
      var latest := Latest(db.jobs, number);
      if db.movies[movie].state == CoreReady then
        (db, JobState(if latest.Some? then latest.value else movie, Completed))
      else if latest == None then
        (AddJob(db, id, NewJob(db.now, movie, number, Ranking, sortDate, Full, [], 1, None)), JobState(id, Queued))
      else
        var job := db.jobs[latest.value];
        if job.status == Queued then
          (if job.priority > PriorityFor(Ranking)
           then db.(jobs := db.jobs[latest.value := Promoted(job, Ranking, sortDate)]) else db,
           JobState(latest.value, Queued))
        else if job.status == Running then (db, JobState(latest.value, Running))
        else (db, JobState(latest.value, Failed))
  }

  ghost function Rescrape(db: Db, movie: Uuid, id: Uuid): (Db, Reply) {
    if movie !in db.movies then (db, Refused(ResourceNotFound))
    else
      var number := db.movies[movie].number;
      match Latest(db.jobs, number)
      case None =>
        (AddJob(db, id, NewJob(db.now, movie, number, ManualOrSearch, None, Full, [], 1, None)), Rescraped(id, Queued, true))
      case Some(latest) =>
        var job := db.jobs[latest];
        if Active(job) && job.retryMode != Full then (db, Refused(JobAlreadyActive))
        else if job.status == Queued then
          (db.(jobs := db.jobs[latest := Promoted(job, ManualOrSearch, None)]), Rescraped(latest, Queued, false))
        else if job.status == Running then (db, Rescraped(latest, Running, false))
        else
          (AddJob(db, id, NewJob(db.now, movie, number, ManualOrSearch, job.sortDate, Full, [],
                                 job.attemptNo + 1, Some(latest))),
           Rescraped(id, Queued, true))
  }

  ghost function ManualRetry(db: Db, parent: Uuid, id: Uuid): (Db, Reply) {
    if parent !in db.jobs || db.jobs[parent].movie !in db.movies then (db, Refused(JobNotFound))
    else
      var job := db.jobs[parent];
      if job.status != Failed then (db, Refused(JobNotFailed))
      else if !NoActive(db.jobs, job.number) then (db, Refused(JobAlreadyActive))
      else
        (AddJob(db, id, NewJob(db.now, job.movie, job.number, ManualOrSearch, job.sortDate, Full, [],
                               NextAttempt(db.jobs, job.number), Some(parent))),
         Enqueued(id, true))
  }

  ghost function RetryEnrichment(db: Db, parent: Uuid, stages: seq<Stage>, id: Uuid): (Db, Reply) {
    match ValidateEnrichment(stages)
    case None => (db, Refused(NoRetryableEnrichment))
    case Some(requested) =>
      if parent !in db.jobs || db.jobs[parent].movie !in db.movies then (db, Refused(JobNotFound))
      else
        var job := db.jobs[parent];
        if job.status != CompletedWithWarnings && job.status != Failed then (db, Refused(NoRetryableEnrichment))
        else if exists s :: s in requested && !Retryable(db, parent, s) then (db, Refused(NoRetryableEnrichment))
        else if !NoActive(db.jobs, job.number) then (db, Refused(JobAlreadyActive))
        else
          (AddJob(db, id, NewJob(db.now, job.movie, job.number, ManualOrSearch, job.sortDate, MissingEnrichment, requested,
                                 NextAttempt(db.jobs, job.number), Some(parent))),
           Enqueued(id, true))
  }

  // ---------------------------------------------------------------- which stages can be retried

  /** The ancestor walk, with its guard against revisiting a job. */
  function LatestNonSkipped(jobs: map<Uuid, Job>, current: Option<Uuid>, visited: set<Uuid>, stage: Stage): Option<StageStatus>
    decreases jobs.Keys - visited
  {
    if current == None || current.value in visited || current.value !in jobs then None
    else
      var job := jobs[current.value];
      if stage in job.stages && job.stages[stage] != StageSkipped then Some(job.stages[stage])
      else LatestNonSkipped(jobs, job.parent, visited + {current.value}, stage)
  }

  predicate RetryableJob(db: Db, id: Uuid) {
    && id in db.jobs
    && var job := db.jobs[id];
    || job.status == CompletedWithWarnings
    || (&& job.status == Failed
        && job.movie in db.movies && db.movies[job.movie].state == CoreReady
        && JavdbCore in job.stages && job.stages[JavdbCore] == StageSucceeded)
  }

  predicate Retryable(db: Db, id: Uuid, stage: Stage) {
    && RetryableJob(db, id)
    && stage in OPTIONAL_STAGES
    && var status := LatestNonSkipped(db.jobs, Some(id), {}, stage);
    status.Some? && (StageWarned(status.value) || status.value == StagePending)
  }

  // ---------------------------------------------------------------- claiming

  const MAX_RUNNING_JOBS: nat := 3

  /** Jobs holding an unexpired claim. */
  function Live(jobs: map<Uuid, Job>, now: int): set<Uuid> {
    set id | id in jobs && jobs[id].status == Running && jobs[id].claim.Some? && jobs[id].claim.value.expiresAt > now
  }

  predicate Claimable(jobs: map<Uuid, Job>, now: int, id: Uuid) {
    && id in jobs
    && (|| jobs[id].status == Queued
        || (jobs[id].status == Running && jobs[id].claim.Some? && jobs[id].claim.value.expiresAt <= now))
  }

  /** Newer dates first, missing dates last. */
  predicate DateBefore(a: Option<int>, b: Option<int>) {
    a.Some? && (b.None? || a.value > b.value)
  }

  /** The order of the claim query: priority, date descending, creation, id. */
  predicate ClaimsBefore(a: Job, aId: Uuid, b: Job, bId: Uuid) {
    || a.priority < b.priority
    || (a.priority == b.priority && DateBefore(a.sortDate, b.sortDate))
    || (a.priority == b.priority && a.sortDate == b.sortDate && a.createdAt < b.createdAt)
    || (a.priority == b.priority && a.sortDate == b.sortDate && a.createdAt == b.createdAt && aId < bId)
  }

  predicate IsLeastClaimable(jobs: map<Uuid, Job>, now: int, id: Uuid) {
    && Claimable(jobs, now, id)
    && forall k :: k in jobs && Claimable(jobs, now, k) && k != id ==> ClaimsBefore(jobs[id], id, jobs[k], k)
  }

  function ClaimedRow(job: Job, owner: Uuid, now: int, lease: int): Job {
    job.(status := Running,
         claim := Some(Lease(owner, now + lease)),
         startedAt := if job.startedAt.None? then Some(now) else job.startedAt,
         stages := if job.status == Running then ResetRunning(job.stages) else job.stages)
  }

  ghost function ClaimNext(db: Db, lease: int, owner: Uuid): (Db, Reply) {
    if db.paused || |Live(db.jobs, db.now)| >= MAX_RUNNING_JOBS then (db, Idle)
    else if id :| IsLeastClaimable(db.jobs, db.now, id) then
      var job := ClaimedRow(db.jobs[id], owner, db.now, lease);
      if job.movie !in db.movies then (db, Refused(ResourceNotFound))
      else
        (db.(jobs := db.jobs[id := job],
             movies := SetCatalog(db.movies, job.movie, MetadataRunning),
             issued := db.issued + {owner}),
         Claimed(Ticket(id, owner), StagesIn(job.stages, StagePending, ALL_STAGES), AnyWarned(job.stages)))
    else (db, Idle)
  }

  // ---------------------------------------------------------------- working under a claim

  function WithJob(db: Db, id: Uuid, job: Job): Db {
    db.(jobs := db.jobs[id := job])
  }

  function Renew(db: Db, t: Ticket, lease: int): (Db, Reply) {
    if !HeldNow(db, t) then (db, Refused(ClaimLost))
    else (WithJob(db, t.job, db.jobs[t.job].(claim := Some(Lease(t.owner, db.now + lease)))), Done)
  }

  function Expire(db: Db, t: Ticket): (Db, Reply) {
    if !Held(db, t) then (db, Refused(ClaimLost))
    else (WithJob(db, t.job, db.jobs[t.job].(claim := Some(Lease(t.owner, db.now)))), Done)
  }

  function StartStage(db: Db, t: Ticket, stage: Stage): (Db, Reply) {
    if !HeldNow(db, t) then (db, Refused(ClaimLost))
    else
      var job := db.jobs[t.job];
      if stage !in job.stages || job.stages[stage] != StagePending then (db, Refused(StageConflict))
      else (WithJob(db, t.job, job.(stages := job.stages[stage := StageRunning])), Done)
  }

  function FinishStage(db: Db, t: Ticket, stage: Stage, result: StageStatus): (Db, Reply)
    requires result == StageSucceeded || StageWarned(result)
  {
    if !HeldNow(db, t) then (db, Refused(ClaimLost))
    else
      var job := db.jobs[t.job];
      if stage !in job.stages || job.stages[stage] != StageRunning then (db, Refused(StageConflict))
      else (WithJob(db, t.job, job.(stages := job.stages[stage := result])), Done)
  }

  function Finished(job: Job, status: JobStatus, now: int, failureCode: Option<string>): Job {
    job.(status := status, claim := None, finishedAt := Some(now), failureCode := failureCode)
  }

  function Complete(db: Db, t: Ticket, withWarnings: bool): (Db, Reply) {
    if !HeldNow(db, t) then (db, Refused(ClaimLost))
    else
      var job := db.jobs[t.job];
      if job.movie !in db.movies || db.movies[job.movie].state != CoreReady then (db, Refused(CoreNotCommitted))
      else if AnyOpen(job.stages) || AnyWarned(job.stages) != withWarnings then (db, Refused(StageConflict))
      else
        (WithJob(db, t.job, Finished(job, if withWarnings then CompletedWithWarnings else Completed, db.now, None)), Done)
  }

  /** The one running stage that failing a job closes: any of them, as the query has no order. */
  predicate IsVictim(stages: StageTable, victim: Option<Stage>) {
    match victim
    case Some(s) => s in stages && stages[s] == StageRunning
    case None => forall s :: s in stages ==> stages[s] != StageRunning
  }

  function CloseStage(stages: StageTable, victim: Option<Stage>): StageTable {
    match victim case Some(s) => stages[s := StageFailed] case None => stages
  }

  function Fail(db: Db, t: Ticket, code: string, requireUnexpired: bool, victim: Option<Stage>): (Db, Reply) {
    if !Held(db, t) || (requireUnexpired && !HeldNow(db, t)) then (db, Refused(ClaimLost))
    else
      var job := db.jobs[t.job];
      var failed := Finished(job.(stages := CloseStage(job.stages, victim)), Failed, db.now, Some(code));
      (WithJob(db, t.job, failed).(movies :=
         if job.movie in db.movies then SetCatalog(db.movies, job.movie, RawOnly) else db.movies), Done)
  }

  /** The importer's fence: an unexpired claim on this very job with the core stage running. */
  predicate FenceHolds(db: Db, t: Ticket, movie: Uuid, number: string) {
    && HeldNow(db, t)
    && var job := db.jobs[t.job];
    && job.movie == movie && job.number == number
    && JavdbCore in job.stages && job.stages[JavdbCore] == StageRunning
  }

  /** `conflict` stands for a unique-key violation on the external identity. */
  function ImportCore(db: Db, t: Ticket, movie: Uuid, number: string, conflict: bool): (Db, Reply) {
    if !FenceHolds(db, t, movie, number) then (db, Refused(ClaimLost))
    else if movie !in db.movies then (db, Refused(MovieNotFound))
    else if db.movies[movie].number != number then (db, Refused(NumberMismatch))
    else if conflict then (db, Refused(IdentityConflict))
    else (db.(movies := db.movies[movie := db.movies[movie].(state := CoreReady)]), Done)
  }

  // ---------------------------------------------------------------- runs

  datatype Action =
    | DoAddMovie(movie: Uuid, number: string)
    | DoEnqueue(movie: Uuid, number: string, sortDate: Option<int>, reason: Reason, id: Uuid)
    | DoEnsureSearch(movie: Uuid, number: string, sortDate: Option<int>, id: Uuid)
    | DoEnsureRanking(movie: Uuid, number: string, sortDate: Option<int>, id: Uuid)
    | DoRescrape(movie: Uuid, id: Uuid)
    | DoManualRetry(parent: Uuid, id: Uuid)
    | DoRetryEnrichment(parent: Uuid, stages: seq<Stage>, id: Uuid)
    | DoSetPaused(paused: bool)
    | DoClaimNext(lease: int, owner: Uuid)
    | DoRenew(ticket: Ticket, lease: int)
    | DoExpire(ticket: Ticket)
    | DoStartStage(ticket: Ticket, stage: Stage)
    | DoFinishStage(ticket: Ticket, stage: Stage, result: StageStatus)
    | DoComplete(ticket: Ticket, withWarnings: bool)
    | DoFail(ticket: Ticket, code: string, requireUnexpired: bool, victim: Option<Stage>)
    | DoImportCore(ticket: Ticket, movie: Uuid, number: string, conflict: bool)
    | DoTick(elapsed: int)

  /** New ids are fresh, leases are positive, the clock does not run backwards and a stage result
      is one of the three terminal ones; movies keep the number they are created with. */
  ghost predicate Allowed(db: Db, a: Action) {
    match a
    case DoAddMovie(movie, number) => movie !in db.movies && forall m :: m in db.movies ==> db.movies[m].number != number
    case DoEnqueue(_, _, _, _, id) => id !in db.jobs
    case DoEnsureSearch(_, _, _, id) => id !in db.jobs
    case DoEnsureRanking(_, _, _, id) => id !in db.jobs
    case DoRescrape(_, id) => id !in db.jobs
    case DoManualRetry(_, id) => id !in db.jobs
    case DoRetryEnrichment(_, _, id) => id !in db.jobs
    case DoClaimNext(lease, owner) => lease > 0 && owner !in db.issued
    case DoRenew(_, lease) => lease > 0
    case DoFinishStage(_, _, result) => result == StageSucceeded || StageWarned(result)
    case DoFail(t, _, _, victim) => t.job in db.jobs ==> IsVictim(db.jobs[t.job].stages, victim)
    case DoTick(elapsed) => elapsed >= 0
    case _ => true
  }

  ghost function Step(db: Db, a: Action): Db
    requires Allowed(db, a)
  {
    match a
    case DoAddMovie(movie, number) => db.(movies := db.movies[movie := Movie(number, RawOnly)])
    case DoEnqueue(movie, number, sortDate, reason, id) => Enqueue(db, movie, number, sortDate, reason, id).0
    case DoEnsureSearch(movie, number, sortDate, id) => EnsureSearch(db, movie, number, sortDate, id).0
    case DoEnsureRanking(movie, number, sortDate, id) => EnsureRanking(db, movie, number, sortDate, id).0
    case DoRescrape(movie, id) => Rescrape(db, movie, id).0
    case DoManualRetry(parent, id) => ManualRetry(db, parent, id).0
    case DoRetryEnrichment(parent, stages, id) => RetryEnrichment(db, parent, stages, id).0
    case DoSetPaused(paused) => db.(paused := paused)
    case DoClaimNext(lease, owner) => ClaimNext(db, lease, owner).0
    case DoRenew(t, lease) => Renew(db, t, lease).0
    case DoExpire(t) => Expire(db, t).0
    case DoStartStage(t, stage) => StartStage(db, t, stage).0
    case DoFinishStage(t, stage, result) => FinishStage(db, t, stage, result).0
    case DoComplete(t, withWarnings) => Complete(db, t, withWarnings).0
    case DoFail(t, code, requireUnexpired, victim) => Fail(db, t, code, requireUnexpired, victim).0
    case DoImportCore(t, movie, number, conflict) => ImportCore(db, t, movie, number, conflict).0
    case DoTick(elapsed) => db.(now := db.now + elapsed)
  }

  ghost predicate AllowedRun(db: Db, actions: seq<Action>)
    decreases |actions|
  {
    actions == [] || (Allowed(db, actions[0]) && AllowedRun(Step(db, actions[0]), actions[1..]))
  }

  ghost function Run(db: Db, actions: seq<Action>): Db
    requires AllowedRun(db, actions)
    decreases |actions|
  {
    if actions == [] then db else Run(Step(db, actions[0]), actions[1..])
  }

  const EMPTY: Db := Db(map[], map[], false, {}, 0)
}
