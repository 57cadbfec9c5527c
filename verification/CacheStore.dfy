/** The cache services over their mutable tables. Every method keeps the invariant and moves the
    tables exactly as the corresponding transition does. */
module CacheServices {
  import opened Wrappers
  import opened CacheModel
  import opened CacheInvariants
  import opened CacheRuns
  import CacheProperties
  import CleanupOrder
  import Spec = CacheModel

  /** How often one claim asks for the deletion while the remote side is busy. */
  const BUSY_RETRIES: nat := 3

  /** What the remote side says about a directory, and about deleting it. */
  datatype Lookup = Owned | Foreign | NoDirectory | LookupBusy | LookupError
  datatype Deletion = Deleted | AlreadyGone | ParentGone | DeletionBusy | DeletionError

  predicate BusyBefore(deletions: seq<Deletion>, tries: nat)
    requires tries <= |deletions|
  {
    forall i :: 0 <= i < tries ==> deletions[i] == DeletionBusy
  }

  /** Some try of the retry loop removed the directory or found it gone. */
  predicate DeletedWithin(deletions: seq<Deletion>, tries: nat)
    requires tries <= |deletions|
  {
    exists k :: 0 <= k < tries && BusyBefore(deletions, k) && (deletions[k] == Deleted || deletions[k] == AlreadyGone)
  }

  /** Some try of the retry loop found the parent directory gone. */
  predicate ParentLostWithin(deletions: seq<Deletion>, tries: nat)
    requires tries <= |deletions|
  {
    exists k :: 0 <= k < tries && BusyBefore(deletions, k) && deletions[k] == ParentGone
  }

  // ---------------------------------------------------------------- facts the methods use

  lemma UnissuedTables(db: Db, tables: Db)
    requires tables == db.(issued := {})
    ensures forall id :: NextWaiting(tables, id) <==> NextWaiting(db, id)
    ensures forall id :: NextEvicted(tables, id) <==> NextEvicted(db, id)
  {
  }

  lemma WaitingIsChosen(db: Db, id: Uuid)
    requires NextWaiting(db, id)
    ensures Chosen(db) == Some(id)
  {
    hide HasActiveLease, WaitsBefore;
    ChosenMeaning(db);
    var other := Chosen(db).value;
    CleanupOrder.WaitOrder(db.jobs[id], id, db.jobs[other], other, db.jobs[id], id);
  }

  lemma EvictedIsChosen(db: Db, id: Uuid)
    requires NextEvicted(db, id) && forall k :: !NextWaiting(db, k)
    ensures Chosen(db) == Some(id)
  {
    hide HasActiveLease, EvictsBefore, NextWaiting;
    ChosenMeaning(db);
    var other := Chosen(db).value;
    CleanupOrder.EvictionOrder(db, id, other, id);
  }

  lemma LastAttemptIs(attempts: map<Uuid, Attempt>, job: Uuid, a: Uuid)
    requires IsLastAttempt(attempts, job, a)
    ensures NextAttemptNo(attempts, job) == attempts[a].no + 1
  {
  }

  lemma OneSuperseded(attempts: map<Uuid, Attempt>, job: Uuid, a: Uuid)
    requires AttemptsSound(attempts) && a in attempts && attempts[a].job == job && attempts[a].status == AttemptRunning
    ensures attempts[a := attempts[a].(status := AttemptFailed)] == Superseded(attempts, job)
  {
    hide HasNo;
    forall b | b in attempts && attempts[b].job == job && attempts[b].status == AttemptRunning ensures b == a {
      assert BothRunning(attempts[a], attempts[b]);
    }
  }

  lemma OneBlocks(db: Db, source: Uuid, existing: Uuid, other: Uuid)
    requires Inv(db) && db.binding.Some?
    requires existing in db.jobs && Blocks(db.jobs[existing], source, db.binding.value)
    requires other in db.jobs && Blocks(db.jobs[other], source, db.binding.value)
    ensures existing == other
  {
    hide Admission, Bound, Keyed, DirectoriesDistinct, Stamped, LeasesSound, PlaysReady, Tokens, AttemptsSound;
    assert Rivals(db.jobs[existing], db.jobs[other]);
  }

  ghost predicate FreshSessions(db: Db, ids: seq<Uuid>) {
    forall s :: s in ids ==> s !in db.sessions && forall key :: key in db.leases ==> key.session != s
  }

  lemma PlaySound(db: Db, job: Uuid, admin: Uuid, client: Uuid, ids: seq<Uuid>, ttl: int)
    requires Inv(db) && ValidTtl(ttl) && FreshSessions(db, ids)
    ensures Inv(Play(db, job, admin, client, ids, ttl).0)
  {
    hide Inv, Play;
    PlayKeepsInv(db, DoPlay(job, admin, client, ids, ttl));
  }

  lemma ClaimByCase(db: Db, token: Uuid, attempt: Uuid)
    ensures Chosen(db) == None ==> CleanupClaim(db, token, attempt) == (db, Nothing)
    ensures Chosen(db).Some? ==>
              var id := Chosen(db).value;
              && id in db.jobs
              && CleanupClaim(db, token, attempt) ==
                   if db.jobs[id].binding == None || db.jobs[id].taskDir == None
                   then (WithJob(db, id, DetachedUnowned(db.jobs[id], db.now)), Nothing)
                   else (db.(jobs := db.jobs[id := CleanupClaimed(db.jobs[id], token, db.now)], issued := db.issued + {token},
                             attempts := Superseded(db.attempts, id)[attempt := Attempt(id, NextAttemptNo(db.attempts, id), AttemptRunning, false)]),
                         Claimed(CleanupTicket(id, attempt, NextAttemptNo(db.attempts, id), token)))
  {
    hide Chosen, NextAttemptNo, Superseded, HasActiveLease;
    if Chosen(db).Some? {
      ChosenRow(db);
    }
  }

  lemma ClaimedRows(job: CacheJob, token: Uuid, now: int)
    ensures var taken := job.(reason := ReasonFor(job, now), status := Cleaning, capacity := ReadyClass);
            && CleanupClaimed(job, token, now) == taken.(claim := Some(Claim(token, now + CLEANUP_CLAIM_LEASE)), updatedAt := now)
            && DetachedUnowned(job, now) == taken.(reason := if taken.reason == None then Some(Manual) else taken.reason,
                                                   status := Detached, capacity := Released, claim := None, updatedAt := now)
  {
    hide ReasonFor;
  }

  lemma PlayedIsReady(db: Db, job: Uuid)
    requires Inv(db) && HasActiveLease(db, job)
    ensures job in db.jobs && db.jobs[job].status == Ready && !Due(db.jobs[job], db.now)
  {
    hide Inv;
    var key :| key in db.leases && key.session in db.sessions && db.sessions[key.session].job == job && LeaseActive(db.leases[key], db.now);
    LeaseFacts(db, key);
    CacheProperties.LeaseOutlivedByJob(db, key);
  }

  lemma AttemptsAreSound(db: Db)
    requires Inv(db)
    ensures AttemptsSound(db.attempts)
  {
  }

  class CacheStore {
    var jobs: map<Uuid, CacheJob>
    var attempts: map<Uuid, Attempt>
    var sessions: map<Uuid, Session>
    var leases: map<LeaseKey, Lease>
    var requests: map<string, PlayRequest>
    var movieOf: map<Uuid, Uuid>
    var binding: Option<Uuid>
    ghost var issued: set<Uuid>

    ghost function Contents(now: int): Db
      reads this
    {
      Db(jobs, attempts, sessions, leases, requests, movieOf, binding, issued, now)
    }

    ghost predicate Sound(now: int)
      reads this
    {
      Inv(Contents(now))
    }

    constructor ()
      ensures Contents(0) == EMPTY && Sound(0)
    {
      jobs, attempts, sessions, leases, requests, movieOf, binding, issued := map[], map[], map[], map[], map[], map[], None, {};
      new;
      EmptyIsSound();
    }

    // ------------------------------------------------------------ play requests

    /** Draw names until no job of the binding has the one drawn. */
    method UniqueTaskDirName(draws: seq<string>) returns (name: string, drawn: nat)
      requires exists i :: 0 <= i < |draws| && NameUnused(jobs, binding, draws[i])
      ensures drawn < |draws| && name == draws[drawn] && NameUnused(jobs, binding, name)
      ensures forall i :: 0 <= i < drawn ==> !NameUnused(jobs, binding, draws[i])
    {
      drawn := 0;
      while exists k :: k in jobs && jobs[k].binding == binding && jobs[k].dirName == draws[drawn]
        invariant drawn < |draws| && forall i :: 0 <= i < drawn ==> !NameUnused(jobs, binding, draws[i])
        decreases |draws| - drawn
      {
        drawn := drawn + 1;
      }
      name := draws[drawn];
    }

    /** `draws` are the random names in the order they come; some name among them is unused, which
        is when the search ends. */
    method CreatePlayRequest(now: int, movie: Uuid, source: Uuid, key: string, sourceOk: bool, id: Uuid, draws: seq<string>)
      returns (reply: Reply, dirName: string)
      requires Sound(now) && id !in jobs && exists i :: 0 <= i < |draws| && NameUnused(jobs, binding, draws[i])
      modifies this`jobs, this`requests
      ensures Sound(now) && (Contents(now), reply) == Create(old(Contents(now)), movie, source, key, sourceOk, id, dirName)
      ensures dirName in draws && old(NameUnused(jobs, binding, dirName))
    {
      hide Inv, HasActiveLease, OfClass, Blocks;
      var drawn;
      dirName, drawn := UniqueTaskDirName(draws);
      CreateKeepsInv(Contents(now), DoCreate(movie, source, key, sourceOk, id, dirName));
      reply := Admit(now, movie, source, key, sourceOk, id, dirName);
    }

    method Admit(now: int, movie: Uuid, source: Uuid, key: string, sourceOk: bool, id: Uuid, dirName: string)
      returns (reply: Reply)
      requires Sound(now) && id !in jobs && NameUnused(jobs, binding, dirName)
      modifies this`jobs, this`requests
      ensures (Contents(now), reply) == Create(old(Contents(now)), movie, source, key, sourceOk, id, dirName)
    {
      hide Inv, HasActiveLease, OfClass, Blocks;
      if key in requests {
        var prior := requests[key];
        if prior.movie != movie || prior.source != source {
          return Refused(IdempotencyConflict);
        }
        if prior.job !in jobs {
          return Refused(StateConflict);
        }
        return Admitted(prior.job, false);
      }
      if binding == None {
        return Refused(BindingRequired);
      }
      if source !in movieOf || movieOf[source] != movie || !sourceOk {
        return Refused(SourceRefused);
      }
      if existing :| existing in jobs && Blocks(jobs[existing], source, binding.value) {
        forall k | k in jobs && Blocks(jobs[k], source, binding.value) ensures k == existing {
          OneBlocks(Contents(now), source, existing, k);
        }
        requests := requests[key := PlayRequest(movie, source, existing)];
        return Admitted(existing, false);
      }
      var status;
      if |OfClass(jobs, RunningClass)| < RUNNING_CAPACITY {
        status := Submitting;
      } else if |OfClass(jobs, QueuedClass)| < QUEUED_CAPACITY {
        status := Queued;
      } else {
        return Refused(QueueFull);
      }
      var job := CacheJob(movie, source, binding, dirName, now, status, CapacityOf(status), None, false, None, None, None, None, now);
      jobs := jobs[id := job];
      requests := requests[key := PlayRequest(movie, source, id)];
      return Admitted(id, true);
    }

    // ------------------------------------------------------------ state changes

    /** Nothing is asked of playback; the invariant is only kept where nobody plays from the job. */
    method Transition(now: int, id: Uuid, target: Status) returns (reply: Reply)
      requires Sound(now)
      modifies this`jobs
      ensures (Contents(now), reply) == GuardedTransition(old(Contents(now)), id, target)
      ensures old(Allowed(Contents(now), DoTransition(id, target))) ==> Sound(now)
    {
      hide Inv, HasActiveLease, OfClass;
      if Allowed(Contents(now), DoTransition(id, target)) {
        TransitionKeepsInv(Contents(now), id, target);
      }
      if id !in jobs {
        return Refused(NotFound);
      }
      var next := Moved(jobs[id], target);
      if next == None {
        return Refused(IllegalTransition);
      }
      if next.value.capacity == RunningClass && jobs[id].capacity != RunningClass && |OfClass(jobs, RunningClass)| >= RUNNING_CAPACITY {
        return Refused(RunningFull);
      }
      jobs := jobs[id := next.value.(updatedAt := now)];
      return Done;
    }

    method RequestCancel(now: int, id: Uuid, confirmed: bool) returns (reply: Reply)
      requires Sound(now)
      modifies this`jobs
      ensures Sound(now) && (Contents(now), reply) == Cancel(old(Contents(now)), id, confirmed)
    {
      hide Inv, HasActiveLease, OfClass, CancelledRow;
      CancelKeepsInv(Contents(now), id, confirmed);
      if !confirmed {
        return Refused(ConfirmationRequired);
      }
      if id !in jobs {
        return Refused(NotFound);
      }
      var job := jobs[id];
      if job.status == Cancelling || job.status == Cleaning {
        if job.reason == None {
          job := job.(reason := Some(CancelledByUser));
        }
        jobs := jobs[id := job];
        return Done;
      }
      if !Cancellable(job.status) {
        return Refused(StateConflict);
      }
      var row := CancelRow(now, job);
      jobs := jobs[id := row];
      return Done;
    }

    static method CancelRow(now: int, job: CacheJob) returns (row: CacheJob)
      requires Cancellable(job.status)
      ensures CancelledRow(job, now) == Some(row)
    {
      var mkdirInFlight :=
        job.status == Submitting && job.taskDir == None && !job.submitStarted && job.infoHash == None && job.claim != None;
      row := Moved(job.(reason := Some(CancelledByUser)), Cancelling).value;
      if !mkdirInFlight {
        row := row.(claim := None);
      }
      if job.taskDir == None && !job.submitStarted && job.infoHash == None && !mkdirInFlight {
        row := Moved(row, Cleaning).value;
        row := Moved(row, Cleaned).value;
      } else if job.taskDir != None && !job.submitStarted {
        row := Moved(row, Cleaning).value;
      }
      row := row.(updatedAt := now);
    }

    method Select(now: int, id: Uuid, valid: bool, ttl: int) returns (reply: Reply)
      requires Sound(now) && ValidTtl(ttl)
      modifies this`jobs
      ensures Sound(now) && (Contents(now), reply) == SelectMedia(old(Contents(now)), id, valid, ttl)
    {
      hide Inv, HasActiveLease;
      SelectKeepsInv(Contents(now), id, valid, ttl);
      if id !in jobs {
        return Refused(NotFound);
      }
      if jobs[id].status != AwaitingSelection || !valid {
        return Refused(StateConflict);
      }
      var job := Moved(jobs[id], Ready).value;
      var stamps := InitialStamps(job.stamps, now, ttl);
      jobs := jobs[id := job.(stamps := Some(stamps), updatedAt := now)];
      return Done;
    }

    // ------------------------------------------------------------ playback

    method CreateSessions(now: int, job: Uuid, admin: Uuid, client: Uuid, ids: seq<Uuid>, ttl: int) returns (reply: Reply)
      requires Sound(now) && ValidTtl(ttl) && FreshSessions(Contents(now), ids)
      modifies this`jobs, this`sessions, this`leases
      ensures Sound(now) && (Contents(now), reply) == Play(old(Contents(now)), job, admin, client, ids, ttl)
    {
      hide Inv, HasActiveLease, SessionRows, LeaseRows, Touched;
      PlaySound(Contents(now), job, admin, client, ids, ttl);
      if job !in jobs {
        return Refused(NotFound);
      }
      if jobs[job].status != Ready || ids == [] {
        return Refused(StateConflict);
      }
      var expiresAt := now + PLAYBACK_SESSION_DURATION;
      jobs := jobs[job := Touched(jobs[job], now, ttl)];
      AddSessions(Session(job, admin, expiresAt, false), ids);
      AddLeases(Lease(now, Min(now + LEASE_DURATION, expiresAt), None), client, ids);
      return Done;
    }

    method AddSessions(session: Session, ids: seq<Uuid>)
      modifies this`sessions
      ensures sessions == old(sessions) + SessionRows(ids, session)
    {
      for i := 0 to |ids|
        invariant sessions == old(sessions) + SessionRows(ids[..i], session)
      {
        sessions := sessions[ids[i] := session];
        assert ids[..i + 1] == ids[..i] + [ids[i]];
      }
      assert ids[..|ids|] == ids;
    }

    method AddLeases(lease: Lease, client: Uuid, ids: seq<Uuid>)
      modifies this`leases
      ensures leases == old(leases) + LeaseRows(ids, client, lease)
    {
      for i := 0 to |ids|
        invariant leases == old(leases) + LeaseRows(ids[..i], client, lease)
      {
        leases := leases[LeaseKey(ids[i], client) := lease];
        assert ids[..i + 1] == ids[..i] + [ids[i]];
      }
      assert ids[..|ids|] == ids;
    }

    method RefreshAndLease(now: int, session: Uuid, client: Uuid, ttl: int)
      requires SessionUsable(Contents(now), session)
      modifies this`jobs, this`leases
      ensures Contents(now) == Leased(old(Contents(now)), session, client, ttl)
    {
      var s := sessions[session];
      jobs := jobs[s.job := Touched(jobs[s.job], now, ttl)];
      leases := leases[LeaseKey(session, client) := Lease(now, Min(now + LEASE_DURATION, s.expiresAt), None)];
    }

    method AcquireLease(now: int, session: Uuid, client: Uuid, ttl: int) returns (reply: Reply)
      requires Sound(now) && ValidTtl(ttl)
      modifies this`jobs, this`leases
      ensures Sound(now) && (Contents(now), reply) == Acquire(old(Contents(now)), session, client, ttl)
    {
      hide Inv, HasActiveLease, Leased;
      PlaybackKeepsInv(Contents(now), DoAcquire(session, client, ttl));
      if session !in sessions || sessions[session].revoked || sessions[session].expiresAt <= now {
        return Refused(StateConflict);
      }
      if sessions[session].job !in jobs || jobs[sessions[session].job].status != Ready {
        return Refused(StateConflict);
      }
      RefreshAndLease(now, session, client, ttl);
      return Done;
    }

    method SendHeartbeat(now: int, session: Uuid, client: Uuid, admin: Uuid, playing: bool, ttl: int) returns (reply: Reply)
      requires Sound(now) && ValidTtl(ttl)
      modifies this`jobs, this`leases
      ensures Sound(now) && (Contents(now), reply) == Heartbeat(old(Contents(now)), session, client, admin, playing, ttl)
    {
      hide Inv, HasActiveLease, Leased;
      PlaybackKeepsInv(Contents(now), DoHeartbeat(session, client, admin, playing, ttl));
      if session !in sessions || sessions[session].job !in jobs || jobs[sessions[session].job].status != Ready {
        return Refused(StateConflict);
      }
      if sessions[session].admin != admin || sessions[session].revoked || sessions[session].expiresAt <= now {
        return Refused(StateConflict);
      }
      var key := LeaseKey(session, client);
      if key !in leases {
        return Refused(StateConflict);
      }
      if !playing {
        leases := leases[key := leases[key].(endedAt := Some(now))];
        return Done;
      }
      RefreshAndLease(now, session, client, ttl);
      return Done;
    }

    method End(now: int, session: Uuid, client: Uuid)
      requires Sound(now)
      modifies this`leases
      ensures Sound(now) && Contents(now) == EndLease(old(Contents(now)), session, client).0
    {
      hide Inv, HasActiveLease;
      PlaybackKeepsInv(Contents(now), DoEndLease(session, client));
      var key := LeaseKey(session, client);
      if key in leases && leases[key].endedAt == None {
        leases := leases[key := leases[key].(endedAt := Some(now))];
      }
    }

    // ------------------------------------------------------------ cleanup

    /** Whether some client plays from the job. Such a job is ready and within its lifetime. */
    method Played(now: int, job: Uuid) returns (played: bool)
      requires Sound(now)
      ensures played == HasActiveLease(Contents(now), job)
      ensures played ==> job in jobs && jobs[job].status == Ready && !Due(jobs[job], now)
    {
      hide Inv;
      if HasActiveLease(Contents(now), job) {
        PlayedIsReady(Contents(now), job);
      }
      played := exists key :: key in leases && key.session in sessions && sessions[key.session].job == job && LeaseActive(leases[key], now);
    }

    method Request(now: int, id: Uuid) returns (reply: Reply)
      requires Sound(now)
      modifies this`jobs
      ensures Sound(now) && (Contents(now), reply) == RequestCleanup(old(Contents(now)), id)
    {
      hide Inv, HasActiveLease;
      RequestKeepsInv(Contents(now), id);
      if id !in jobs {
        return Refused(NotFound);
      }
      var played := Played(now, id);
      if played {
        return Refused(Problem.ActiveLease);
      }
      var job := jobs[id];
      if job.status == Cleaning {
        return Done;
      }
      if job.status != AwaitingSelection && job.status != Ready && job.status != CleanupFailed {
        return Refused(StateConflict);
      }
      job := Requested(now, job);
      jobs := jobs[id := job];
      return Done;
    }

    static method Requested(now: int, job: CacheJob) returns (row: CacheJob)
      requires Materialized(job.status) || job.status == CleanupFailed
      ensures row == job.(reason := if job.reason == None then Some(Manual) else job.reason,
                          status := Cleaning, capacity := ReadyClass, claim := None, updatedAt := now)
    {
      row := job;
      if row.reason == None {
        row := row.(reason := Some(Manual));
      }
      row := Moved(row, Cleaning).value;
      row := row.(claim := None, updatedAt := now);
    }

    /** The job the two queries return: one waiting to be cleaned, else one to evict. */
    method NextJob(now: int) returns (next: Option<Uuid>)
      ensures next == Chosen(Contents(now))
    {
      hide NextWaiting, NextEvicted;
      var tables := Db(jobs, attempts, sessions, leases, requests, movieOf, binding, {}, now);
      UnissuedTables(Contents(now), tables);
      ChosenMeaning(Contents(now));
      if id :| id in jobs && NextWaiting(tables, id) {
        WaitingIsChosen(Contents(now), id);
        next := Some(id);
      } else {
        NoneWaits(Contents(now));
        if id :| id in jobs && NextEvicted(tables, id) {
          EvictedIsChosen(Contents(now), id);
          next := Some(id);
        } else {
          NoneEvicted(Contents(now));
          next := None;
        }
      }
    }

    static lemma NoneWaits(db: Db)
      requires forall id :: id in db.jobs ==> !NextWaiting(db, id)
      ensures forall id :: !NextWaiting(db, id)
    {
      hide HasActiveLease, WaitsBefore;
    }

    static lemma NoneEvicted(db: Db)
      requires forall id :: id in db.jobs ==> !NextEvicted(db, id)
      ensures forall id :: !NextEvicted(db, id)
    {
      hide HasActiveLease, EvictsBefore;
    }

    method NextAttempt(job: Uuid) returns (no: nat)
      ensures no == NextAttemptNo(attempts, job)
    {
      if a :| a in attempts && IsLastAttempt(attempts, job, a) {
        LastAttemptIs(attempts, job, a);
        no := attempts[a].no + 1;
      } else {
        no := 1;
      }
    }

    method SupersedeAttempt(job: Uuid)
      requires AttemptsSound(attempts)
      modifies this`attempts
      ensures attempts == Superseded(old(attempts), job)
    {
      if a :| a in attempts && attempts[a].job == job && attempts[a].status == AttemptRunning {
        OneSuperseded(attempts, job, a);
        attempts := attempts[a := attempts[a].(status := AttemptFailed)];
      } else {
        assert attempts == Superseded(attempts, job);
      }
    }

    /** End the job's running attempt, if any, and open the next one. */
    method StartAttempt(job: Uuid, attempt: Uuid) returns (no: nat)
      requires AttemptsSound(attempts)
      modifies this`attempts
      ensures no == NextAttemptNo(old(attempts), job)
      ensures attempts == Superseded(old(attempts), job)[attempt := Attempt(job, no, AttemptRunning, false)]
    {
      no := NextAttempt(job);
      SupersedeAttempt(job);
      attempts := attempts[attempt := Attempt(job, no, AttemptRunning, false)];
    }

    static method TakeOver(now: int, job: CacheJob) returns (row: CacheJob)
      requires (Materialized(job.status) || job.status == Cleaning) && StatusClass(job)
      ensures row == job.(reason := ReasonFor(job, now), status := Cleaning, capacity := ReadyClass)
    {
      row := job;
      if Materialized(job.status) {
        row := row.(reason := Some(if Due(row, now) then Ttl else OverCapacity));
        row := Moved(row, Cleaning).value;
      }
    }

    static method Disown(now: int, job: CacheJob) returns (row: CacheJob)
      requires job.status == Cleaning
      ensures row == job.(reason := if job.reason == None then Some(Manual) else job.reason,
                          status := Detached, capacity := Released, claim := None, updatedAt := now)
    {
      row := job;
      if row.reason == None {
        row := row.(reason := Some(Manual));
      }
      row := Moved(row, Detached).value;
      row := row.(claim := None, updatedAt := now);
    }

    method ClaimNext(now: int, token: Uuid, attempt: Uuid) returns (reply: Reply)
      requires Sound(now) && token !in issued && attempt !in attempts
      modifies this`jobs, this`attempts, this`issued
      ensures Sound(now) && (Contents(now), reply) == CleanupClaim(old(Contents(now)), token, attempt)
    {
      hide Inv, HasActiveLease, CleanupClaim, Chosen, NextAttemptNo, Superseded, AttemptsSound, StampsSound, ReasonFor,
           Moved, CapacityOf, Successors, Available, Due, StatusClass, DetachedUnowned, CleanupClaimed;
      AttemptsAreSound(Contents(now));
      CleanupClaimKeepsInv(Contents(now), token, attempt);
      ClaimByCase(Contents(now), token, attempt);
      var next := NextJob(now);
      if next == None {
        return Nothing;
      }
      var id := next.value;
      ChosenRow(Contents(now));
      RowFacts(Contents(now), id);
      ClaimedRows(jobs[id], token, now);
      var row := TakeOver(now, jobs[id]);
      if row.binding == None || row.taskDir == None {
        row := Disown(now, row);
        jobs := jobs[id := row];
        return Nothing;
      }
      var no := StartAttempt(id, attempt);
      jobs := jobs[id := row.(claim := Some(Claim(token, now + CLEANUP_CLAIM_LEASE)), updatedAt := now)];
      issued := issued + {token};
      return Claimed(CleanupTicket(id, attempt, no, token));
    }

    /** Close a claim: the attempt ends, the job is freed and moves on, unless the claim was lost. */
    method Finish(now: int, ticket: CleanupTicket, outcome: Outcome) returns (reply: Reply)
      requires Sound(now)
      requires outcome == CleanupBusy ==> ticket.attempt in attempts ==> attempts[ticket.attempt].no < BUSY_MAX_ATTEMPTS
      modifies this`jobs, this`attempts
      ensures Sound(now) && (Contents(now), reply) == EndCleanup(old(Contents(now)), ticket, outcome)
    {
      hide Inv, HasActiveLease, EndedRow, EndedAttempt, StatusClass, StampsSound;
      EndCleanupKeepsInv(Contents(now), ticket, outcome);
      if ticket.job !in jobs || ticket.attempt !in attempts || jobs[ticket.job].status != Cleaning
         || jobs[ticket.job].claim == None || jobs[ticket.job].claim.value.token != ticket.token
         || jobs[ticket.job].claim.value.expiresAt <= now
         || attempts[ticket.attempt].job != ticket.job || attempts[ticket.attempt].status != AttemptRunning
      {
        return Refused(ClaimLost);
      }
      RowFacts(Contents(now), ticket.job);
      var job, attempt := Concluded(now, jobs[ticket.job], attempts[ticket.attempt], outcome);
      attempts := attempts[ticket.attempt := attempt];
      jobs := jobs[ticket.job := job];
      return Done;
    }

    static method Concluded(now: int, job: CacheJob, attempt: Attempt, outcome: Outcome) returns (row: CacheJob, ended: Attempt)
      requires job.status == Cleaning && StatusClass(job)
      ensures row == EndedRow(job, outcome, now) && ended == EndedAttempt(attempt, outcome)
    {
      row, ended := job, attempt;
      match outcome {
        case CleanupSucceeded =>
          row := Moved(row, Cleaned).value;
          ended := ended.(status := AttemptSucceeded);
          if row.reason == None {
            row := row.(reason := Some(Manual));
          }
        case CleanupFailure =>
          row := Moved(row, CleanupFailed).value;
          ended := ended.(status := AttemptFailed);
        case CleanupBusy =>
          ended := ended.(status := AttemptFailed, busy := true);
        case CleanupDetached =>
          row := Moved(row, Detached).value;
          ended := ended.(status := AttemptDetached);
      }
      row := row.(claim := None, updatedAt := now);
    }

    /** Ask for the deletion again while the remote side is busy, up to the retry limit. */
    method DeleteWithBusyRetry(deletions: seq<Deletion>) returns (last: Deletion, tries: nat)
      requires |deletions| == BUSY_RETRIES
      ensures 1 <= tries <= 3 && BusyBefore(deletions, tries - 1) && last == deletions[tries - 1]
      ensures last == DeletionBusy ==> tries == 3
    {
      tries := 1;
      last := deletions[0];
      while last == DeletionBusy && tries < BUSY_RETRIES
        invariant 1 <= tries <= BUSY_RETRIES && BusyBefore(deletions, tries - 1) && last == deletions[tries - 1]
        decreases BUSY_RETRIES - tries
      {
        last := deletions[tries];
        tries := tries + 1;
      }
    }

    /** One claim's work on the remote side. A job counts as cleaned exactly when its directory was
        found missing under an owned root, or was owned and then deleted or gone; it is detached
        when ownership cannot be shown; a busy remote gives it back to the queue until the attempt
        limit, and everything else fails it. */
    method Process(now: int, ticket: CleanupTicket, root: Lookup, task: Lookup, deletions: seq<Deletion>)
      returns (outcome: Outcome, reply: Reply)
      requires Sound(now) && |deletions| == BUSY_RETRIES
      requires ticket.attempt in attempts ==> attempts[ticket.attempt].no == ticket.attemptNo
      modifies this`jobs, this`attempts
      ensures Sound(now) && (Contents(now), reply) == EndCleanup(old(Contents(now)), ticket, outcome)
      ensures outcome == CleanupSucceeded <==>
                root == Owned && (task == NoDirectory || (task == Owned && DeletedWithin(deletions, BUSY_RETRIES)))
      ensures outcome == CleanupBusy <==>
                ticket.attemptNo < BUSY_MAX_ATTEMPTS
                && (root == LookupBusy || (root == Owned && (task == LookupBusy || (task == Owned && BusyBefore(deletions, BUSY_RETRIES)))))
      ensures outcome == CleanupDetached <==>
                || root == Foreign || root == NoDirectory
                || (root == Owned && (task == Foreign || (task == Owned && ParentLostWithin(deletions, BUSY_RETRIES))))
    {
      var busy := if ticket.attemptNo >= BUSY_MAX_ATTEMPTS then CleanupFailure else CleanupBusy;
      if root != Owned {
        outcome := if root == Foreign || root == NoDirectory then CleanupDetached else if root == LookupBusy then busy else CleanupFailure;
      } else if task != Owned {
        outcome := if task == NoDirectory then CleanupSucceeded else if task == Foreign then CleanupDetached
        else if task == LookupBusy then busy else CleanupFailure;
      } else {
        var last, tries := DeleteWithBusyRetry(deletions);
        RetriesMeaning(deletions, last, tries);
        match last {
          case Deleted => outcome := CleanupSucceeded;
          case AlreadyGone => outcome := CleanupSucceeded;
          case ParentGone => outcome := CleanupDetached;
          case DeletionBusy => outcome := busy;
          case DeletionError => outcome := CleanupFailure;
        }
      }
      reply := Finish(now, ticket, outcome);
    }

    static lemma RetriesMeaning(deletions: seq<Deletion>, last: Deletion, tries: nat)
      requires |deletions| == BUSY_RETRIES && 1 <= tries <= BUSY_RETRIES
      requires BusyBefore(deletions, tries - 1) && last == deletions[tries - 1] && (last == DeletionBusy ==> tries == BUSY_RETRIES)
      ensures DeletedWithin(deletions, BUSY_RETRIES) <==> last == Deleted || last == AlreadyGone
      ensures ParentLostWithin(deletions, BUSY_RETRIES) <==> last == ParentGone
      ensures BusyBefore(deletions, BUSY_RETRIES) <==> last == DeletionBusy
    {
      assert deletions[tries - 1] == last;
      assert last == Deleted || last == AlreadyGone ==> DeletedWithin(deletions, BUSY_RETRIES);
      assert last == ParentGone ==> ParentLostWithin(deletions, BUSY_RETRIES);
    }
  }
}
