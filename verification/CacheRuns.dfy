/** Every transaction of the cache lifecycle keeps its invariant. */
module CacheRuns {
  import opened Wrappers
  import opened CacheModel
  import opened CacheInvariants

  // ---------------------------------------------------------------- admission

  predicate HasRoom(jobs: map<Uuid, CacheJob>, status: Status) {
    || (status == Submitting && |OfClass(jobs, RunningClass)| < RUNNING_CAPACITY)
    || (status == Queued && |OfClass(jobs, QueuedClass)| < QUEUED_CAPACITY)
  }

  /** A new job, with or without a reused key, needs a free source, a fresh directory and capacity. */
  lemma InsertKeepsAdmission(db: Db, movie: Uuid, source: Uuid, key: string, id: Uuid, dirName: string, status: Status)
    requires Admission(db.jobs) && id !in db.jobs
    requires HasRoom(db.jobs, status)
    ensures Admission(Insert(db, movie, source, key, id, dirName, status).jobs)
  {
    var jobs' := Insert(db, movie, source, key, id, dirName, status).jobs;
    InsertedClass(db.jobs, id, NewCacheJob(db, movie, source, dirName, status), RunningClass);
    InsertedClass(db.jobs, id, NewCacheJob(db, movie, source, dirName, status), QueuedClass);
  }

  lemma InsertedClass(jobs: map<Uuid, CacheJob>, id: Uuid, job: CacheJob, capacity: Capacity)
    requires id !in jobs
    ensures |OfClass(jobs[id := job], capacity)| == |OfClass(jobs, capacity)| + if job.capacity == capacity then 1 else 0
  {
    assert OfClass(jobs[id := job], capacity) == OfClass(jobs, capacity) + if job.capacity == capacity then {id} else {};
  }

  lemma InsertKeepsOwnership(db: Db, movie: Uuid, source: Uuid, key: string, id: Uuid, dirName: string, status: Status)
    requires Bound(db.jobs, db.binding) && OnePerSource(db.jobs) && Keyed(db.requests, db.jobs) && DirectoriesDistinct(db.jobs)
    requires id !in db.jobs && db.binding.Some? && (status == Submitting || status == Queued)
    requires forall k :: k in db.jobs && db.jobs[k].binding == db.binding ==> db.jobs[k].dirName != dirName
    requires forall k :: k in db.jobs ==> !Blocks(db.jobs[k], source, db.binding.value)
    ensures var db' := Insert(db, movie, source, key, id, dirName, status);
            && Bound(db'.jobs, db'.binding) && OnePerSource(db'.jobs)
            && Keyed(db'.requests, db'.jobs) && DirectoriesDistinct(db'.jobs)
  {
    var db' := Insert(db, movie, source, key, id, dirName, status);
    forall a, b | a in db'.jobs && b in db'.jobs && Rivals(db'.jobs[a], db'.jobs[b]) ensures a == b {
      assert a != id && b != id ==> Rivals(db.jobs[a], db.jobs[b]);
    }
    forall a, b | a in db'.jobs && b in db'.jobs && SameDirectory(db'.jobs[a], db'.jobs[b]) ensures a == b {
      assert a != id && b != id ==> SameDirectory(db.jobs[a], db.jobs[b]);
    }
  }

  lemma InsertKeepsRest(db: Db, movie: Uuid, source: Uuid, key: string, id: Uuid, dirName: string, status: Status)
    requires Stamped(db.jobs, db.now) && LeasesSound(db.leases, db.sessions, db.jobs)
    requires PlaysReady(db.leases, db.sessions, db.jobs, db.now) && Tokens(db.jobs, db.binding, db.issued)
    requires id !in db.jobs && (status == Submitting || status == Queued)
    ensures var db' := Insert(db, movie, source, key, id, dirName, status);
            && Stamped(db'.jobs, db.now) && LeasesSound(db.leases, db.sessions, db'.jobs)
            && PlaysReady(db.leases, db.sessions, db'.jobs, db.now) && Tokens(db'.jobs, db.binding, db.issued)
  {
  }

  lemma InsertKeepsInv(db: Db, movie: Uuid, source: Uuid, key: string, id: Uuid, dirName: string, status: Status)
    requires Inv(db) && id !in db.jobs && db.binding.Some?
    requires HasRoom(db.jobs, status)
    requires forall k :: k in db.jobs && db.jobs[k].binding == db.binding ==> db.jobs[k].dirName != dirName
    requires forall k :: k in db.jobs ==> !Blocks(db.jobs[k], source, db.binding.value)
    ensures Inv(Insert(db, movie, source, key, id, dirName, status))
    ensures RowsStep(db, Insert(db, movie, source, key, id, dirName, status).jobs)
  {
    hide Admission, Bound, OnePerSource, Keyed, DirectoriesDistinct, Stamped, LeasesSound, PlaysReady, Tokens, AttemptsSound;
    RowsUnchanged(db);
    InsertKeepsAdmission(db, movie, source, key, id, dirName, status);
    InsertKeepsOwnership(db, movie, source, key, id, dirName, status);
    InsertKeepsRest(db, movie, source, key, id, dirName, status);
  }

  lemma ReuseKeepsInv(db: Db, movie: Uuid, source: Uuid, key: string, existing: Uuid)
    requires Inv(db) && existing in db.jobs && db.jobs[existing].source == source
    ensures Inv(db.(requests := db.requests[key := PlayRequest(movie, source, existing)]))
    ensures RowsStep(db, db.(requests := db.requests[key := PlayRequest(movie, source, existing)]).jobs)
  {
    hide Admission, Bound, OnePerSource, DirectoriesDistinct, Stamped, LeasesSound, PlaysReady, Tokens, AttemptsSound;
    RowsUnchanged(db);
  }

  lemma CreateKeepsInv(db: Db, a: Action)
    requires Inv(db) && a.DoCreate? && Allowed(db, a)
    ensures Inv(Step(db, a))
    ensures RowsStep(db, Step(db, a).jobs)
  {
    hide Inv, Insert;
    RowsUnchanged(db);
    var DoCreate(movie, source, key, sourceOk, id, dirName) := a;
    if key !in db.requests && db.binding.Some? {
      forall k | k in db.jobs && db.jobs[k].source == source {
        ReuseKeepsInv(db, movie, source, key, k);
      }
      if forall k :: k in db.jobs ==> !Blocks(db.jobs[k], source, db.binding.value) {
        if HasRoom(db.jobs, Submitting) {
          InsertKeepsInv(db, movie, source, key, id, dirName, Submitting);
        } else if HasRoom(db.jobs, Queued) {
          InsertKeepsInv(db, movie, source, key, id, dirName, Queued);
        }
      }
    }
  }

  // ---------------------------------------------------------------- single-row transactions

  lemma TransitionKeepsInv(db: Db, id: Uuid, target: Status)
    requires Inv(db) && Allowed(db, DoTransition(id, target))
    ensures Inv(GuardedTransition(db, id, target).0)
    ensures RowsStep(db, GuardedTransition(db, id, target).0.jobs)
  {
    hide Inv, HasActiveLease;
    RowsUnchanged(db);
    if GuardedTransition(db, id, target).1 == Done {
      RowFacts(db, id);
      var row := Moved(db.jobs[id], target).value.(updatedAt := db.now);
      assert GoodRow(db, id, row);
      RowKeepsInv(db, id, row, db.issued);
    }
  }

  lemma CancelledIsGood(db: Db, id: Uuid)
    requires id in db.jobs && StatusClass(db.jobs[id]) && StampsSound(db.jobs[id], db.now) && Cancellable(db.jobs[id].status)
    ensures var r := CancelledRow(db.jobs[id], db.now);
            r.Some? && GoodRow(db, id, r.value) && (r.value.claim.Some? ==> r.value.claim == db.jobs[id].claim)
  {
    hide HasActiveLease;
  }

  lemma ReasonIsGood(db: Db, id: Uuid, reason: Option<CleanupReason>)
    requires id in db.jobs && StatusClass(db.jobs[id]) && StampsSound(db.jobs[id], db.now)
    ensures GoodRow(db, id, db.jobs[id].(reason := reason))
  {
  }

  lemma CancelKeepsInv(db: Db, id: Uuid, confirmed: bool)
    requires Inv(db)
    ensures Inv(Cancel(db, id, confirmed).0)
    ensures RowsStep(db, Cancel(db, id, confirmed).0.jobs)
  {
    hide Inv, HasActiveLease, CancelledRow, GoodRow;
    RowsUnchanged(db);
    var (db', reply) := Cancel(db, id, confirmed);
    if reply == Done {
      RowFacts(db, id);
      if Cancellable(db.jobs[id].status) {
        CancelledIsGood(db, id);
      } else {
        ReasonIsGood(db, id, db'.jobs[id].reason);
      }
      RowKeepsInv(db, id, db'.jobs[id], db.issued);
    }
  }

  lemma SelectKeepsInv(db: Db, id: Uuid, valid: bool, ttl: int)
    requires Inv(db) && ValidTtl(ttl)
    ensures Inv(SelectMedia(db, id, valid, ttl).0)
    ensures RowsStep(db, SelectMedia(db, id, valid, ttl).0.jobs)
  {
    hide Inv, HasActiveLease;
    RowsUnchanged(db);
    var (db', reply) := SelectMedia(db, id, valid, ttl);
    if reply == Done {
      RowFacts(db, id);
      assert GoodRow(db, id, db'.jobs[id]);
      RowKeepsInv(db, id, db'.jobs[id], db.issued);
    }
  }

  lemma PipelineClaimedIsGood(db: Db, id: Uuid, token: Uuid)
    requires id in db.jobs && StatusClass(db.jobs[id]) && StampsSound(db.jobs[id], db.now)
    requires Cancellable(db.jobs[id].status) || db.jobs[id].status == Cancelling
    ensures GoodRow(db, id, PipelineClaimed(db.jobs[id], token, db.now))
    ensures db.jobs[id].status == Queued && |OfClass(db.jobs, RunningClass)| < RUNNING_CAPACITY ==>
              GoodRow(db, id, PipelineClaimed(db.jobs[id].(status := Submitting, capacity := RunningClass), token, db.now))
  {
    hide HasActiveLease;
  }

  lemma PipelineClaimKeepsInv(db: Db, id: Uuid, token: Uuid)
    requires Inv(db)
    ensures Inv(PipelineClaim(db, id, token).0)
    ensures RowsStep(db, PipelineClaim(db, id, token).0.jobs)
  {
    hide Inv, HasActiveLease, GoodRow, StatusClass, StampsSound;
    RowsUnchanged(db);
    var (db', reply) := PipelineClaim(db, id, token);
    if reply == Done {
      RowFacts(db, id);
      PipelineClaimedIsGood(db, id, token);
      RowKeepsInv(db, id, db'.jobs[id], db.issued + {token});
    }
  }

  lemma WorkKeepsInv(db: Db, id: Uuid, token: Uuid, effect: Effect)
    requires Inv(db) && Allowed(db, DoWork(id, token, effect))
    ensures Inv(Work(db, id, token, effect).0)
    ensures RowsStep(db, Work(db, id, token, effect).0.jobs)
  {
    hide Inv, HasActiveLease, Applied;
    RowsUnchanged(db);
    var (db', reply) := Work(db, id, token, effect);
    if reply == Done {
      RowFacts(db, id);
      EffectIsGood(db, id, effect);
      RowKeepsInv(db, id, db'.jobs[id], db.issued);
    }
  }

  /** A worker acts on jobs before they are materialized, so it never takes a ready job away. */
  lemma EffectIsGood(db: Db, id: Uuid, effect: Effect)
    requires id in db.jobs && db.jobs[id].claim.Some? && StatusClass(db.jobs[id]) && StampsSound(db.jobs[id], db.now)
    requires effect.CompleteResolution? ==> ValidTtl(effect.ttl)
    ensures var r := Applied(db.jobs[id], effect, db.now);
            r.Some? ==> GoodRow(db, id, r.value) && (r.value.claim.Some? ==> r.value.claim.value.token == db.jobs[id].claim.value.token)
  {
    hide Applied, GoodRow, StatusClass, StampsSound;
    if Renewing(effect) {
      RenewingIsGood(db, id, effect);
    } else if effect.CompleteResolution? {
      ResolutionIsGood(db, id, effect);
    } else if effect.CompleteCancel? {
      CancelEffectIsGood(db, id);
    } else {
      MovingIsGood(db, id, effect);
    }
  }

  predicate Renewing(effect: Effect) {
    effect.SaveDirectory? || effect.MarkSubmitStarted? || effect.SaveCancelTarget? || effect.Defer? || effect.RenewClaim?
    || (effect.OfflineSnapshot? && effect.status == OfflineProgress)
  }

  lemma RenewingIsGood(db: Db, id: Uuid, effect: Effect)
    requires id in db.jobs && db.jobs[id].claim.Some? && StatusClass(db.jobs[id]) && StampsSound(db.jobs[id], db.now)
    requires Renewing(effect)
    ensures var r := Applied(db.jobs[id], effect, db.now);
            r.Some? ==> GoodRow(db, id, r.value) && (r.value.claim.Some? ==> r.value.claim.value.token == db.jobs[id].claim.value.token)
  {
    hide HasActiveLease;
  }

  lemma ResolutionIsGood(db: Db, id: Uuid, effect: Effect)
    requires id in db.jobs && db.jobs[id].claim.Some? && StatusClass(db.jobs[id]) && StampsSound(db.jobs[id], db.now)
    requires effect.CompleteResolution? && ValidTtl(effect.ttl)
    ensures var r := Applied(db.jobs[id], effect, db.now);
            r.Some? ==> GoodRow(db, id, r.value) && r.value.claim == None
  {
    hide HasActiveLease;
  }

  lemma CancelEffectIsGood(db: Db, id: Uuid)
    requires id in db.jobs && db.jobs[id].claim.Some? && StatusClass(db.jobs[id]) && StampsSound(db.jobs[id], db.now)
    ensures var r := Applied(db.jobs[id], CompleteCancel, db.now);
            r.Some? ==> GoodRow(db, id, r.value) && r.value.claim == None
  {
    hide HasActiveLease;
  }

  lemma MovingIsGood(db: Db, id: Uuid, effect: Effect)
    requires id in db.jobs && db.jobs[id].claim.Some? && StatusClass(db.jobs[id]) && StampsSound(db.jobs[id], db.now)
    requires !Renewing(effect) && !effect.CompleteResolution? && !effect.CompleteCancel?
    ensures var r := Applied(db.jobs[id], effect, db.now);
            r.Some? ==> GoodRow(db, id, r.value) && r.value.claim == None
  {
    hide HasActiveLease, GoodRow;
    if effect.DetachJob? {
      MoveIsGood(db, id, db.jobs[id], Detached);
    } else if effect.FailJob? || (effect.OfflineSnapshot? && effect.status == OfflineFailed) {
      MoveIsGood(db, id, db.jobs[id], Failed);
    } else if effect.OfflineSnapshot? {
      MoveIsGood(db, id, db.jobs[id], Resolving);
    } else if effect.MarkUncertain? {
      MoveIsGood(db, id, db.jobs[id].(infoHash := None), SubmitUncertain);
    } else if effect.SaveSubmission? {
      MoveIsGood(db, id, db.jobs[id].(infoHash := Some(effect.hash)), Offlining);
    }
  }

  lemma MoveIsGood(db: Db, id: Uuid, job: CacheJob, target: Status)
    requires id in db.jobs && StatusClass(db.jobs[id]) && StampsSound(db.jobs[id], db.now)
    requires job == db.jobs[id].(infoHash := job.infoHash) && db.jobs[id].claim.Some?
    requires target == Detached || target == Failed || target == Resolving || target == SubmitUncertain || target == Offlining
    ensures var r := Unclaimed(Moved(job, target), db.now);
            r.Some? ==> GoodRow(db, id, r.value) && r.value.claim == None
  {
    hide HasActiveLease;
  }

  lemma RequestKeepsInv(db: Db, id: Uuid)
    requires Inv(db)
    ensures Inv(RequestCleanup(db, id).0)
    ensures RowsStep(db, RequestCleanup(db, id).0.jobs)
  {
    hide Inv, HasActiveLease;
    RowsUnchanged(db);
    var (db', reply) := RequestCleanup(db, id);
    if reply == Done && db.jobs[id].status != Cleaning {
      RowFacts(db, id);
      assert GoodRow(db, id, db'.jobs[id]);
      RowKeepsInv(db, id, db'.jobs[id], db.issued);
    }
  }

  // ---------------------------------------------------------------- playback

  lemma TouchKeepsInv(db: Db, id: Uuid, ttl: int)
    requires Inv(db) && id in db.jobs && db.jobs[id].status == Ready && ValidTtl(ttl)
    ensures Inv(WithJob(db, id, Touched(db.jobs[id], db.now, ttl)))
    ensures RowsStep(db, WithJob(db, id, Touched(db.jobs[id], db.now, ttl)).jobs)
  {
    hide Inv, HasActiveLease;
    RowsUnchanged(db);
    RowFacts(db, id);
    var row := Touched(db.jobs[id], db.now, ttl);
    assert GoodRow(db, id, row);
    RowKeepsInv(db, id, row, db.issued);
  }

  /** Writing leases on sessions whose ready job was touched just now. */
  lemma LeasesKeepInv(db: Db, sessions: map<Uuid, Session>, leases: map<LeaseKey, Lease>)
    requires Inv(db)
    requires forall s :: s in db.sessions ==> s in sessions && sessions[s] == db.sessions[s]
    requires forall s :: s in sessions && s !in db.sessions ==> sessions[s].job in db.jobs
    requires forall key :: key in leases ==>
               (key in db.leases && leases[key] == db.leases[key]) || FreshLease(db, sessions, leases, key)
    ensures Inv(db.(sessions := sessions, leases := leases))
    ensures RowsStep(db, db.(sessions := sessions, leases := leases).jobs)
  {
    hide Admission, Bound, OnePerSource, Keyed, DirectoriesDistinct, Stamped, Tokens, AttemptsSound;
    RowsUnchanged(db);
  }

  /** Either an ended lease that was sound, or a running one on a ready job accessed just now. */
  predicate FreshLease(db: Db, sessions: map<Uuid, Session>, leases: map<LeaseKey, Lease>, key: LeaseKey)
    requires key in leases
  {
    && key.session in sessions && sessions[key.session].job in db.jobs
    && var job := db.jobs[sessions[key.session].job];
    && LeaseSound(leases[key], job)
    && (leases[key].endedAt == None ==> job.status == Ready)
  }

  lemma PlayKeepsInv(db: Db, a: Action)
    requires Inv(db) && a.DoPlay? && Allowed(db, a)
    ensures Inv(Step(db, a))
    ensures RowsStep(db, Step(db, a).jobs)
  {
    hide Inv;
    RowsUnchanged(db);
    var DoPlay(id, admin, client, sessions, ttl) := a;
    var (db', reply) := Play(db, id, admin, client, sessions, ttl);
    if reply == Done {
      TouchKeepsInv(db, id, ttl);
      var touched := WithJob(db, id, Touched(db.jobs[id], db.now, ttl));
      LeasesKeepInv(touched, db'.sessions, db'.leases);
    }
  }

  lemma LeasedKeepsInv(db: Db, session: Uuid, client: Uuid, ttl: int)
    requires Inv(db) && SessionUsable(db, session) && ValidTtl(ttl)
    ensures Inv(Leased(db, session, client, ttl))
    ensures RowsStep(db, Leased(db, session, client, ttl).jobs)
  {
    hide Inv;
    RowsUnchanged(db);
    var id := db.sessions[session].job;
    TouchKeepsInv(db, id, ttl);
    LeasesKeepInv(WithJob(db, id, Touched(db.jobs[id], db.now, ttl)), db.sessions, Leased(db, session, client, ttl).leases);
  }

  lemma EndKeepsInv(db: Db, key: LeaseKey)
    requires Inv(db) && key in db.leases
    ensures Inv(db.(leases := db.leases[key := db.leases[key].(endedAt := Some(db.now))]))
    ensures RowsStep(db, db.(leases := db.leases[key := db.leases[key].(endedAt := Some(db.now))]).jobs)
  {
    hide Inv;
    RowsUnchanged(db);
    LeaseFacts(db, key);
    LeasesKeepInv(db, db.sessions, db.leases[key := db.leases[key].(endedAt := Some(db.now))]);
  }

  lemma LeaseFacts(db: Db, key: LeaseKey)
    requires Inv(db) && key in db.leases
    ensures key.session in db.sessions && db.sessions[key.session].job in db.jobs
    ensures LeaseSound(db.leases[key], db.jobs[db.sessions[key.session].job])
    ensures LeaseActive(db.leases[key], db.now) ==> db.jobs[db.sessions[key.session].job].status == Ready
  {
  }

  lemma PlaybackKeepsInv(db: Db, a: Action)
    requires Inv(db) && Allowed(db, a) && (a.DoAcquire? || a.DoHeartbeat? || a.DoEndLease?)
    ensures Inv(Step(db, a))
    ensures RowsStep(db, Step(db, a).jobs)
  {
    hide Inv, SessionUsable;
    RowsUnchanged(db);
    match a
    case DoAcquire(session, client, ttl) =>
      if SessionUsable(db, session) {
        LeasedKeepsInv(db, session, client, ttl);
      }
    case DoHeartbeat(session, client, admin, playing, ttl) =>
      if SessionUsable(db, session) && LeaseKey(session, client) in db.leases {
        LeasedKeepsInv(db, session, client, ttl);
        EndKeepsInv(db, LeaseKey(session, client));
      }
    case DoEndLease(session, client) =>
      if LeaseKey(session, client) in db.leases {
        EndKeepsInv(db, LeaseKey(session, client));
      }
  }

  // ---------------------------------------------------------------- cleanup

  lemma ChosenMeaning(db: Db)
    ensures Chosen(db).Some? ==> NextWaiting(db, Chosen(db).value)
                                 || (NextEvicted(db, Chosen(db).value) && forall k :: k in db.jobs ==> !NextWaiting(db, k))
    ensures Chosen(db) == None ==> forall k :: k in db.jobs ==> !NextWaiting(db, k) && !NextEvicted(db, k)
  {
    hide NextWaiting, NextEvicted;
  }

  lemma ChosenRow(db: Db)
    requires Chosen(db).Some?
    ensures var id := Chosen(db).value;
            id in db.jobs && Free(db, id) && (db.jobs[id].status == Cleaning || Materialized(db.jobs[id].status))
  {
    ChosenMeaning(db);
  }

  lemma CleanupRowsAreGood(db: Db, id: Uuid, token: Uuid)
    requires Free(db, id) && (db.jobs[id].status == Cleaning || Materialized(db.jobs[id].status))
    requires StatusClass(db.jobs[id]) && StampsSound(db.jobs[id], db.now)
    ensures GoodRow(db, id, CleanupClaimed(db.jobs[id], token, db.now))
    ensures GoodRow(db, id, DetachedUnowned(db.jobs[id], db.now))
  {
    hide HasActiveLease;
  }

  lemma LastNo(attempts: map<Uuid, Attempt>, job: Uuid)
    requires AttemptsSound(attempts)
    ensures NextAttemptNo(attempts, job) >= 1
    ensures forall a :: a in attempts && attempts[a].job == job ==> attempts[a].no < NextAttemptNo(attempts, job)
    ensures NextAttemptNo(attempts, job) > 1 ==> HasNo(attempts, job, NextAttemptNo(attempts, job) - 1)
  {
    var mine := AttemptsOf(attempts, job);
    if mine != {} {
      var top := NewestAttempt(attempts, mine);
      assert IsLastAttempt(attempts, job, top);
    }
    assert forall a :: a in attempts && attempts[a].job == job ==> a in mine;
  }

  lemma {:induction false} NewestAttempt(attempts: map<Uuid, Attempt>, ids: set<Uuid>) returns (top: Uuid)
    requires ids != {} && ids <= attempts.Keys
    ensures top in ids && forall k :: k in ids ==> attempts[k].no <= attempts[top].no
  {
    var id :| id in ids;
    if ids == {id} {
      top := id;
    } else {
      var rest := NewestAttempt(attempts, ids - {id});
      top := if attempts[id].no > attempts[rest].no then id else rest;
    }
  }

  lemma ClaimKeepsAttempts(attempts: map<Uuid, Attempt>, job: Uuid, attempt: Uuid)
    requires AttemptsSound(attempts) && attempt !in attempts
    ensures AttemptsSound(Superseded(attempts, job)[attempt := Attempt(job, NextAttemptNo(attempts, job), AttemptRunning, false)])
  {
    hide NextAttemptNo;
    LastNo(attempts, job);
    SupersededKeepsAttempts(attempts, job);
    NewAttemptKeepsAttempts(Superseded(attempts, job), job, attempt, NextAttemptNo(attempts, job));
  }

  lemma SupersededKeepsAttempts(attempts: map<Uuid, Attempt>, job: Uuid)
    requires AttemptsSound(attempts)
    ensures AttemptsSound(Superseded(attempts, job))
    ensures forall no :: HasNo(attempts, job, no) ==> HasNo(Superseded(attempts, job), job, no)
  {
    var after := Superseded(attempts, job);
    forall j, no | HasNo(attempts, j, no) ensures HasNo(after, j, no) {
      var a :| a in attempts && attempts[a].job == j && attempts[a].no == no;
      assert a in after && after[a].job == j && after[a].no == no;
    }
    forall a, b | a in after && b in after && SameNo(after[a], after[b]) ensures a == b {
      assert SameNo(attempts[a], attempts[b]);
    }
    forall a, b | a in after && b in after && BothRunning(after[a], after[b]) ensures a == b {
      assert BothRunning(attempts[a], attempts[b]);
    }
  }

  lemma NewAttemptKeepsAttempts(attempts: map<Uuid, Attempt>, job: Uuid, attempt: Uuid, no: nat)
    requires AttemptsSound(attempts) && attempt !in attempts && no >= 1
    requires forall a :: a in attempts && attempts[a].job == job ==> attempts[a].no < no && attempts[a].status != AttemptRunning
    requires no > 1 ==> HasNo(attempts, job, no - 1)
    ensures AttemptsSound(attempts[attempt := Attempt(job, no, AttemptRunning, false)])
  {
    var after := attempts[attempt := Attempt(job, no, AttemptRunning, false)];
    forall j, n | HasNo(attempts, j, n) ensures HasNo(after, j, n) {
      var a :| a in attempts && attempts[a].job == j && attempts[a].no == n;
      assert a in after && after[a].job == j && after[a].no == n;
    }
    forall a, b | a in after && b in after && SameNo(after[a], after[b]) ensures a == b {
      assert a != attempt && b != attempt ==> SameNo(attempts[a], attempts[b]);
    }
    forall a, b | a in after && b in after && BothRunning(after[a], after[b]) ensures a == b {
      assert a != attempt && b != attempt ==> BothRunning(attempts[a], attempts[b]);
    }
  }

  lemma CleanupClaimKeepsInv(db: Db, token: Uuid, attempt: Uuid)
    requires Inv(db) && attempt !in db.attempts
    ensures Inv(CleanupClaim(db, token, attempt).0)
    ensures RowsStep(db, CleanupClaim(db, token, attempt).0.jobs)
  {
    hide Inv, Chosen, HasActiveLease, NextAttemptNo, Superseded, GoodRow, StatusClass, StampsSound;
    RowsUnchanged(db);
    match Chosen(db)
    case None =>
    case Some(id) =>
      ChosenRow(db);
      RowFacts(db, id);
      CleanupRowsAreGood(db, id, token);
      var job := db.jobs[id];
      if job.binding == None || job.taskDir == None {
        RowKeepsInv(db, id, DetachedUnowned(job, db.now), db.issued);
      } else {
        var db' := CleanupClaim(db, token, attempt).0;
        RowKeepsInv(db, id, CleanupClaimed(job, token, db.now), db.issued + {token});
        AttemptsKeepInv(db, WithJob(db, id, CleanupClaimed(job, token, db.now)).(issued := db.issued + {token}), id, attempt);
      }
  }

  lemma AttemptsKeepInv(db: Db, db1: Db, id: Uuid, attempt: Uuid)
    requires Inv(db1) && db1.attempts == db.attempts && attempt !in db.attempts
    ensures Inv(db1.(attempts := Superseded(db.attempts, id)[attempt := Attempt(id, NextAttemptNo(db.attempts, id), AttemptRunning, false)]))
  {
    hide Admission, Bound, OnePerSource, Keyed, DirectoriesDistinct, Stamped, LeasesSound, PlaysReady, Tokens, AttemptsSound,
         NextAttemptNo, Superseded;
    ClaimKeepsAttempts(db.attempts, id, attempt);
  }

  lemma EndedIsGood(db: Db, id: Uuid, outcome: Outcome)
    requires id in db.jobs && db.jobs[id].status == Cleaning && StatusClass(db.jobs[id]) && StampsSound(db.jobs[id], db.now)
    ensures GoodRow(db, id, EndedRow(db.jobs[id], outcome, db.now))
  {
    hide HasActiveLease;
  }

  lemma EndKeepsNumbers(attempts: map<Uuid, Attempt>, attempt: Uuid, ended: Attempt, job: Uuid, no: int)
    requires attempt in attempts && SameNo(ended, attempts[attempt]) && HasNo(attempts, job, no)
    ensures HasNo(attempts[attempt := ended], job, no)
  {
    var after := attempts[attempt := ended];
    var a :| a in attempts && attempts[a].job == job && attempts[a].no == no;
    assert a in after && after[a].job == job && after[a].no == no;
  }

  lemma EndKeepsAttempts(attempts: map<Uuid, Attempt>, attempt: Uuid, outcome: Outcome)
    requires AttemptsSound(attempts) && attempt in attempts && attempts[attempt].status == AttemptRunning
    requires outcome == CleanupBusy ==> attempts[attempt].no < BUSY_MAX_ATTEMPTS
    ensures AttemptsSound(attempts[attempt := EndedAttempt(attempts[attempt], outcome)])
  {
    var ended := EndedAttempt(attempts[attempt], outcome);
    var after := attempts[attempt := ended];
    forall a | a in after && after[a].no > 1 ensures HasNo(after, after[a].job, after[a].no - 1) {
      EndKeepsNumbers(attempts, attempt, ended, after[a].job, after[a].no - 1);
    }
    forall a, b | a in after && b in after && SameNo(after[a], after[b]) ensures a == b {
      assert SameNo(attempts[a], attempts[b]);
    }
    forall a, b | a in after && b in after && BothRunning(after[a], after[b]) ensures a == b {
      assert BothRunning(attempts[a], attempts[b]);
    }
  }

  lemma EndCleanupKeepsInv(db: Db, t: CleanupTicket, outcome: Outcome)
    requires Inv(db)
    requires outcome == CleanupBusy ==> t.attempt in db.attempts ==> db.attempts[t.attempt].no < BUSY_MAX_ATTEMPTS
    ensures Inv(EndCleanup(db, t, outcome).0)
    ensures RowsStep(db, EndCleanup(db, t, outcome).0.jobs)
  {
    hide Admission, Bound, OnePerSource, Keyed, DirectoriesDistinct, Stamped, LeasesSound, PlaysReady, Tokens, AttemptsSound,
         HasActiveLease, EndedAttempt, StatusClass, StampsSound, GoodRow;
    RowsUnchanged(db);
    if CleanupHeld(db, t) {
      RowFacts(db, t.job);
      EndedIsGood(db, t.job, outcome);
      RowKeepsInv(db, t.job, EndedRow(db.jobs[t.job], outcome, db.now), db.issued);
      EndKeepsAttempts(db.attempts, t.attempt, outcome);
    }
  }

  // ---------------------------------------------------------------- the binding and the clock

  lemma UnboundKeepsAdmission(jobs: map<Uuid, CacheJob>, jobs': map<Uuid, CacheJob>)
    requires Admission(jobs) && jobs' == map id | id in jobs :: jobs[id].(binding := None)
    ensures Admission(jobs')
  {
    assert OfClass(jobs', RunningClass) == OfClass(jobs, RunningClass);
    assert OfClass(jobs', QueuedClass) == OfClass(jobs, QueuedClass);
  }

  function Unbound(jobs: map<Uuid, CacheJob>): map<Uuid, CacheJob> {
    map id | id in jobs :: jobs[id].(binding := None)
  }

  lemma UnboundKeepsOwnership(db: Db)
    requires Keyed(db.requests, db.jobs) && forall id :: id in db.jobs ==> db.jobs[id].capacity == Released
    ensures var jobs' := Unbound(db.jobs);
            Bound(jobs', None) && OnePerSource(jobs') && Keyed(db.requests, jobs') && DirectoriesDistinct(jobs')
  {
  }

  lemma UnboundKeepsLeases(db: Db)
    requires Stamped(db.jobs, db.now) && LeasesSound(db.leases, db.sessions, db.jobs)
    requires PlaysReady(db.leases, db.sessions, db.jobs, db.now) && Tokens(db.jobs, db.binding, db.issued)
    ensures var jobs' := Unbound(db.jobs);
            && Stamped(jobs', db.now) && LeasesSound(db.leases, db.sessions, jobs')
            && PlaysReady(db.leases, db.sessions, jobs', db.now) && Tokens(jobs', None, db.issued)
  {
  }

  lemma UnboundRows(db: Db)
    requires forall id :: id in db.jobs ==> db.jobs[id].capacity == Released
    ensures RowsStep(db, Unbound(db.jobs))
  {
    hide GoodRow;
  }

  lemma UnbindKeepsInv(db: Db)
    requires Inv(db)
    ensures Inv(RemoveBinding(db).0)
    ensures RowsStep(db, RemoveBinding(db).0.jobs)
  {
    RowsUnchanged(db);
    hide Admission, Bound, OnePerSource, Keyed, DirectoriesDistinct, Stamped, LeasesSound, PlaysReady, Tokens, AttemptsSound,
         RowsStep;
    var (db', reply) := RemoveBinding(db);
    if reply == Done {
      assert db'.jobs == Unbound(db.jobs);
      UnboundKeepsAdmission(db.jobs, db'.jobs);
      UnboundKeepsOwnership(db);
      UnboundKeepsLeases(db);
      UnboundRows(db);
    }
  }

  lemma BindKeepsInv(db: Db, binding: Uuid)
    requires Inv(db) && db.binding == None
    ensures Inv(db.(binding := Some(binding), issued := db.issued + {binding}))
    ensures RowsStep(db, db.(binding := Some(binding), issued := db.issued + {binding}).jobs)
  {
    hide Admission, OnePerSource, Keyed, DirectoriesDistinct, Stamped, LeasesSound, PlaysReady, AttemptsSound;
    RowsUnchanged(db);
  }

  lemma TickKeepsInv(db: Db, elapsed: int)
    requires Inv(db) && elapsed >= 0
    ensures Inv(db.(now := db.now + elapsed))
    ensures RowsStep(db, db.(now := db.now + elapsed).jobs)
  {
    hide Admission, Bound, OnePerSource, Keyed, DirectoriesDistinct, LeasesSound, Tokens, AttemptsSound;
    RowsUnchanged(db);
  }

  lemma AssignKeepsInv(db: Db, movieOf: map<Uuid, Uuid>)
    requires Inv(db)
    ensures Inv(db.(movieOf := movieOf))
    ensures RowsStep(db, db.(movieOf := movieOf).jobs)
  {
    RowsUnchanged(db);
  }

  // ---------------------------------------------------------------- every reachable state

  lemma StepKeepsInv(db: Db, a: Action)
    requires Inv(db) && Allowed(db, a)
    ensures Inv(Step(db, a))
    ensures RowsStep(db, Step(db, a).jobs)
  {
    hide Inv, GuardedTransition, Cancel, SelectMedia, PipelineClaim, Work, RequestCleanup, CleanupClaim, EndCleanup, RemoveBinding,
         RowStep, HasActiveLease;
    RowsUnchanged(db);
    match a
    case DoBind(binding) => BindKeepsInv(db, binding);
    case DoUnbind => UnbindKeepsInv(db);
    case DoAssign(source, movie) => AssignKeepsInv(db, db.movieOf[source := movie]);
    case DoCreate(_, _, _, _, _, _) => CreateKeepsInv(db, a);
    case DoTransition(id, target) => TransitionKeepsInv(db, id, target);
    case DoCancel(id, confirmed) => CancelKeepsInv(db, id, confirmed);
    case DoSelect(id, valid, ttl) => SelectKeepsInv(db, id, valid, ttl);
    case DoPipelineClaim(id, token) => PipelineClaimKeepsInv(db, id, token);
    case DoWork(id, token, effect) => WorkKeepsInv(db, id, token, effect);
    case DoPlay(_, _, _, _, _) => PlayKeepsInv(db, a);
    case DoAcquire(_, _, _) => PlaybackKeepsInv(db, a);
    case DoHeartbeat(_, _, _, _, _) => PlaybackKeepsInv(db, a);
    case DoEndLease(_, _) => PlaybackKeepsInv(db, a);
    case DoRequestCleanup(id) => RequestKeepsInv(db, id);
    case DoCleanupClaim(token, attempt) => CleanupClaimKeepsInv(db, token, attempt);
    case DoEndCleanup(t, outcome) => EndCleanupKeepsInv(db, t, outcome);
    case DoBusy(t) => EndCleanupKeepsInv(db, t, BusyOutcome(t.attemptNo));
    case DoTick(elapsed) => TickKeepsInv(db, elapsed);
  }

  /** The invariant holds in every state a run can reach from a sound one. */
  lemma {:induction false} RunKeepsInv(db: Db, actions: seq<Action>)
    requires Inv(db) && AllowedRun(db, actions)
    ensures Inv(Run(db, actions))
    decreases |actions|
  {
    hide Inv;
    if actions != [] {
      StepKeepsInv(db, actions[0]);
      RunKeepsInv(Step(db, actions[0]), actions[1..]);
    }
  }

  lemma EmptyIsSound()
    ensures Inv(EMPTY)
  {
    assert OfClass(EMPTY.jobs, RunningClass) == {} && OfClass(EMPTY.jobs, QueuedClass) == {};
  }
}
