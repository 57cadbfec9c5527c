/** The cleanup queue: what repeated claims take and in which order, why a waiting job is served,
    and how often the remote side may be busy. */
module CleanupOrder {
  import opened Wrappers
  import opened CacheModel
  import opened CacheInvariants
  import opened CacheRuns
  import CacheProperties

  // ---------------------------------------------------------------- the two orders

  lemma WaitOrder(a: CacheJob, aId: Uuid, b: CacheJob, bId: Uuid, c: CacheJob, cId: Uuid)
    ensures WaitsBefore(a, aId, b, bId) && WaitsBefore(b, bId, c, cId) ==> WaitsBefore(a, aId, c, cId)
    ensures aId != bId ==> (WaitsBefore(a, aId, b, bId) <==> !WaitsBefore(b, bId, a, aId))
  {
  }

  lemma LruOrder(a: CacheJob, aId: Uuid, b: CacheJob, bId: Uuid, c: CacheJob, cId: Uuid)
    ensures LruBefore(a, aId, b, bId) && LruBefore(b, bId, c, cId) ==> LruBefore(a, aId, c, cId)
    ensures aId != bId ==> (LruBefore(a, aId, b, bId) <==> !LruBefore(b, bId, a, aId))
  {
  }

  lemma EvictionOrder(db: Db, a: Uuid, b: Uuid, c: Uuid)
    requires a in db.jobs && b in db.jobs && c in db.jobs
    ensures EvictsBefore(db, a, b) && EvictsBefore(db, b, c) ==> EvictsBefore(db, a, c)
    ensures a != b ==> (EvictsBefore(db, a, b) <==> !EvictsBefore(db, b, a))
  {
    hide LruBefore;
    LruOrder(db.jobs[a], a, db.jobs[b], b, db.jobs[c], c);
  }

  /** The sort key of the lifecycle module: each optional instant becomes a presence flag and the
      instant, or the smallest instant when it is missing. */
  datatype LruKey = LruKey(accessed: bool, accessedAt: int, ready: bool, readyAt: int, createdAt: int, id: Uuid)

  function LruOrderKey(accessedAt: Option<int>, readyAt: Option<int>, createdAt: int, id: Uuid, least: int): LruKey {
    LruKey(accessedAt.Some?, if accessedAt.Some? then accessedAt.value else least,
           readyAt.Some?, if readyAt.Some? then readyAt.value else least, createdAt, id)
  }

  predicate FlagBefore(a: bool, b: bool) {
    !a && b
  }

  /** Tuples compare lexicographically, with false before true. */
  predicate KeyBefore(a: LruKey, b: LruKey) {
    if a.accessed != b.accessed then FlagBefore(a.accessed, b.accessed)
    else if a.accessedAt != b.accessedAt then a.accessedAt < b.accessedAt
    else if a.ready != b.ready then FlagBefore(a.ready, b.ready)
    else if a.readyAt != b.readyAt then a.readyAt < b.readyAt
    else if a.createdAt != b.createdAt then a.createdAt < b.createdAt
    else a.id < b.id
  }

  /** The query's ordering of two optional instants: missing ones first. */
  function NullsFirst(a: Option<int>, b: Option<int>): int {
    match (a, b)
    case (None, None) => 0
    case (None, Some(_)) => -1
    case (Some(_), None) => 1
    case (Some(x), Some(y)) => if x < y then -1 else if x > y then 1 else 0
  }

  predicate QueryBefore(a: LruKey, b: LruKey) {
    var accessed := NullsFirst(if a.accessed then Some(a.accessedAt) else None, if b.accessed then Some(b.accessedAt) else None);
    var ready := NullsFirst(if a.ready then Some(a.readyAt) else None, if b.ready then Some(b.readyAt) else None);
    if accessed != 0 then accessed < 0
    else if ready != 0 then ready < 0
    else if a.createdAt != b.createdAt then a.createdAt < b.createdAt
    else a.id < b.id
  }

  /** The key order is the query's order, whatever instants are missing; on materialized jobs both
      are the order in which the cleanup claim evicts. */
  lemma LruKeyAgreesWithQuery(a: CacheJob, aId: Uuid, b: CacheJob, bId: Uuid, least: int,
                              accessedA: Option<int>, readyA: Option<int>, accessedB: Option<int>, readyB: Option<int>)
    ensures var k, l := LruOrderKey(accessedA, readyA, a.createdAt, aId, least), LruOrderKey(accessedB, readyB, b.createdAt, bId, least);
            KeyBefore(k, l) <==> QueryBefore(k, l)
    ensures a.stamps.Some? && b.stamps.Some?
            && accessedA == Some(a.stamps.value.lastAccessed) && readyA == Some(a.stamps.value.readyAt)
            && accessedB == Some(b.stamps.value.lastAccessed) && readyB == Some(b.stamps.value.readyAt) ==>
              (LruBefore(a, aId, b, bId)
               <==> KeyBefore(LruOrderKey(accessedA, readyA, a.createdAt, aId, least), LruOrderKey(accessedB, readyB, b.createdAt, bId, least)))
  {
  }

  // ---------------------------------------------------------------- which job a claim takes

  lemma {:induction false} FirstWaiting(db: Db, ids: set<Uuid>) returns (first: Uuid)
    requires ids != {} && ids <= db.jobs.Keys
    ensures first in ids && forall k :: k in ids && k != first ==> WaitsBefore(db.jobs[first], first, db.jobs[k], k)
  {
    var id :| id in ids;
    if ids == {id} {
      first := id;
    } else {
      var rest := FirstWaiting(db, ids - {id});
      first := if WaitsBefore(db.jobs[id], id, db.jobs[rest], rest) then id else rest;
      forall k | k in ids && k != first ensures WaitsBefore(db.jobs[first], first, db.jobs[k], k) {
        WaitOrder(db.jobs[id], id, db.jobs[rest], rest, db.jobs[k], k);
      }
    }
  }

  lemma {:induction false} FirstEvicted(db: Db, ids: set<Uuid>) returns (first: Uuid)
    requires ids != {} && ids <= db.jobs.Keys
    ensures first in ids && forall k :: k in ids && k != first ==> EvictsBefore(db, first, k)
  {
    hide EvictsBefore;
    var id :| id in ids;
    if ids == {id} {
      first := id;
    } else {
      var rest := FirstEvicted(db, ids - {id});
      first := if EvictsBefore(db, id, rest) then id else rest;
      forall k | k in ids && k != first ensures EvictsBefore(db, first, k) {
        EvictionOrder(db, id, rest, k);
        EvictionOrder(db, rest, id, k);
      }
    }
  }

  /** A claim serves the first waiting job if there is one, else evicts the first eligible job, and
      finds nothing exactly when there is neither. */
  lemma ChosenExactly(db: Db)
    ensures (exists k :: k in db.jobs && WaitingCleanup(db, k)) ==> Chosen(db).Some? && NextWaiting(db, Chosen(db).value)
    ensures (forall k :: k in db.jobs ==> !WaitingCleanup(db, k)) && (exists k :: k in db.jobs && Eligible(db, k)) ==>
              Chosen(db).Some? && NextEvicted(db, Chosen(db).value)
    ensures Chosen(db) == None <==> forall k :: k in db.jobs ==> !WaitingCleanup(db, k) && !Eligible(db, k)
  {
    hide EvictsBefore, WaitsBefore, WaitingCleanup, Eligible;
    ChosenMeaning(db);
    var waiting := set k | k in db.jobs && WaitingCleanup(db, k);
    var eligible := set k | k in db.jobs && Eligible(db, k);
    if waiting != {} {
      var first := FirstWaiting(db, waiting);
      assert NextWaiting(db, first);
    }
    if eligible != {} {
      var first := FirstEvicted(db, eligible);
      assert NextEvicted(db, first);
    }
    assert forall k :: k in db.jobs && WaitingCleanup(db, k) ==> k in waiting;
    assert forall k :: k in db.jobs && Eligible(db, k) ==> k in eligible;
  }

  lemma ClaimOfNothing(db: Db, token: Uuid, attempt: Uuid)
    requires Chosen(db) == None
    ensures CleanupClaim(db, token, attempt) == (db, Nothing)
  {
  }

  // ---------------------------------------------------------------- draining at one instant

  predicate Cleanable(db: Db, id: Uuid) {
    Free(db, id) && (db.jobs[id].status == Cleaning || Materialized(db.jobs[id].status))
  }

  /** The jobs a claim could still act on at this instant. */
  function Pending(db: Db): set<Uuid> {
    set id | id in db.jobs && Cleanable(db, id)
  }

  function ClaimRow(job: CacheJob, token: Uuid, now: int): CacheJob {
    if job.binding == None || job.taskDir == None then DetachedUnowned(job, now) else CleanupClaimed(job, token, now)
  }

  /** A claim rewrites the chosen job's row and no other. */
  lemma ClaimTouchesChosen(db: Db, token: Uuid, attempt: Uuid)
    requires Chosen(db).Some?
    ensures var db' := CleanupClaim(db, token, attempt).0;
            var id := Chosen(db).value;
            && id in db.jobs && db'.jobs == db.jobs[id := ClaimRow(db.jobs[id], token, db.now)]
            && db'.leases == db.leases && db'.sessions == db.sessions && db'.now == db.now
            && Free(db, id) && (db.jobs[id].status == Cleaning || Materialized(db.jobs[id].status))
  {
    hide Chosen, HasActiveLease, NextAttemptNo, Superseded;
    ChosenRow(db);
  }

  /** Each claim that acts takes one job out of the pending ones and leaves the rest alone. */
  lemma ClaimShrinksPending(db: Db, token: Uuid, attempt: Uuid)
    requires Chosen(db).Some?
    ensures var db' := CleanupClaim(db, token, attempt).0;
            var id := Chosen(db).value;
            && id in Pending(db) && Pending(db') == Pending(db) - {id}
            && forall k :: k in db.jobs && k != id ==> db'.jobs[k] == db.jobs[k] && (HasActiveLease(db', k) <==> HasActiveLease(db, k))
  {
    hide Chosen, CleanupClaim;
    ClaimTouchesChosen(db, token, attempt);
  }

  ghost predicate OnlyClaims(actions: seq<Action>) {
    forall a :: a in actions ==> a.DoCleanupClaim?
  }

  /** Claiming over and over at one instant ends: after as many claims as there were pending jobs,
      nothing is left to take. */
  lemma {:induction false} DrainTerminates(db: Db, actions: seq<Action>)
    requires OnlyClaims(actions) && |actions| >= |Pending(db)|
    ensures Chosen(Run(db, actions)) == None
    decreases |actions|
  {
    hide Pending, Chosen, CleanupClaim;
    if Chosen(db) == None {
      NothingToTake(db, actions);
    } else {
      var DoCleanupClaim(token, attempt) := if actions == [] then DoCleanupClaim(0, 0) else actions[0];
      ClaimShrinksPending(db, token, attempt);
      if actions != [] {
        assert |Pending(Step(db, actions[0]))| == |Pending(db)| - 1;
        DrainTerminates(Step(db, actions[0]), actions[1..]);
      }
    }
  }

  lemma {:induction false} NothingToTake(db: Db, actions: seq<Action>)
    requires OnlyClaims(actions) && Chosen(db) == None
    ensures Run(db, actions) == db
    decreases |actions|
  {
    hide Chosen, CleanupClaim;
    if actions != [] {
      ClaimOfNothing(db, actions[0].token, actions[0].attempt);
      NothingToTake(Step(db, actions[0]), actions[1..]);
    }
  }

  /** What is left then: no free job past its time to live, none waiting to be cleaned, and either
      the ready jobs outside cleaning are at most twenty or none of them is free. */
  lemma QuietMeaning(db: Db)
    requires Inv(db)
    ensures Chosen(db) == None <==>
            && (forall k :: k in db.jobs ==> !WaitingCleanup(db, k))
            && (forall k :: k in db.jobs && Materialized(db.jobs[k].status) && Available(db.jobs[k], db.now) ==> !Due(db.jobs[k], db.now))
            && (|OfClass(db.jobs, ReadyClass)| - |CleaningJobs(db.jobs)| <= 20 || forall k :: k in db.jobs ==> !Evictable(db, k))
  {
    hide Chosen, Inv, HasActiveLease, Available, WaitingCleanup;
    ChosenExactly(db);
    forall k | k in db.jobs && Due(db.jobs[k], db.now) ensures !HasActiveLease(db, k) {
      CacheProperties.DueJobsAreNotPlayed(db, k);
    }
  }

  // ---------------------------------------------------------------- evictions follow the order

  predicate Taken(db: Db, id: Uuid) {
    id in db.jobs && !Materialized(db.jobs[id].status)
  }

  /** Along a drain, evictions are a prefix of the order (past their time to live first, then least
      recently used): if a job was taken, every evictable job before it was taken too. */
  lemma {:induction false} EvictionsArePrefix(db: Db, actions: seq<Action>, b: Uuid, c: Uuid)
    requires OnlyClaims(actions) && Evictable(db, b) && Evictable(db, c) && EvictsBefore(db, c, b)
    requires Taken(Run(db, actions), b)
    ensures Taken(Run(db, actions), c)
    decreases |actions|
  {
    hide Chosen, CleanupClaim, HasActiveLease, Available, LruBefore;
    if actions != [] {
      var db' := Step(db, actions[0]);
      if Chosen(db) == None {
        ClaimOfNothing(db, actions[0].token, actions[0].attempt);
        EvictionsArePrefix(db', actions[1..], b, c);
      } else {
        BeforeIsTakenFirst(db, b, c);
        if Chosen(db).value == c {
          ClaimTakes(db, actions[0]);
          StaysTaken(db', actions[1..], c);
        } else {
          ClaimKeepsOthersEvictable(db, actions[0], b, c);
          EvictionsArePrefix(db', actions[1..], b, c);
        }
      }
    }
  }

  lemma ClaimTakes(db: Db, a: Action)
    requires a.DoCleanupClaim? && Chosen(db).Some?
    ensures Taken(Step(db, a), Chosen(db).value)
  {
    hide Chosen, CleanupClaim, HasActiveLease;
    ClaimTouchesChosen(db, a.token, a.attempt);
  }

  lemma ClaimKeepsOthersEvictable(db: Db, a: Action, b: Uuid, c: Uuid)
    requires a.DoCleanupClaim? && Chosen(db).Some? && Chosen(db).value != b && Chosen(db).value != c
    requires Evictable(db, b) && Evictable(db, c) && EvictsBefore(db, c, b)
    ensures Evictable(Step(db, a), b) && Evictable(Step(db, a), c) && EvictsBefore(Step(db, a), c, b)
  {
    hide Chosen, CleanupClaim, HasActiveLease, LruBefore;
    ClaimTouchesChosen(db, a.token, a.attempt);
    ClaimShrinksPending(db, a.token, a.attempt);
  }

  lemma BeforeIsTakenFirst(db: Db, b: Uuid, c: Uuid)
    requires Evictable(db, b) && Evictable(db, c) && EvictsBefore(db, c, b)
    ensures b != c && Chosen(db) != Some(b)
  {
    hide HasActiveLease, Available, Chosen;
    ChosenMeaning(db);
    EvictionOrder(db, b, c, b);
  }

  lemma {:induction false} StaysTaken(db: Db, actions: seq<Action>, id: Uuid)
    requires OnlyClaims(actions) && Taken(db, id)
    ensures Taken(Run(db, actions), id)
    decreases |actions|
  {
    hide Chosen, CleanupClaim;
    if actions != [] {
      if Chosen(db).Some? {
        ClaimTouchesChosen(db, actions[0].token, actions[0].attempt);
      } else {
        ClaimOfNothing(db, actions[0].token, actions[0].attempt);
      }
      StaysTaken(Step(db, actions[0]), actions[1..], id);
    }
  }

  function Excess(jobs: map<Uuid, CacheJob>): int {
    |OfClass(jobs, ReadyClass)| - |CleaningJobs(jobs)|
  }

  lemma LeavingReadyLowersExcess(jobs: map<Uuid, CacheJob>, id: Uuid, row: CacheJob)
    requires id in jobs && Materialized(jobs[id].status) && jobs[id].capacity == ReadyClass
    requires (row.status == Cleaning && row.capacity == ReadyClass) || (row.status == Detached && row.capacity == Released)
    ensures Excess(jobs[id := row]) == Excess(jobs) - 1
  {
    var jobs' := jobs[id := row];
    if row.status == Cleaning {
      assert OfClass(jobs', ReadyClass) == OfClass(jobs, ReadyClass);
      assert CleaningJobs(jobs') == CleaningJobs(jobs) + {id};
    } else {
      assert OfClass(jobs', ReadyClass) == OfClass(jobs, ReadyClass) - {id};
      assert CleaningJobs(jobs') == CleaningJobs(jobs);
    }
  }

  /** An eviction brings the number of ready jobs outside cleaning down by one, and is only made
      for capacity when that number was above the target. */
  lemma EvictionLowersExcess(db: Db, token: Uuid, attempt: Uuid)
    requires Inv(db) && Chosen(db).Some? && Chosen(db).value in db.jobs && Materialized(db.jobs[Chosen(db).value].status)
    ensures Excess(CleanupClaim(db, token, attempt).0.jobs) == Excess(db.jobs) - 1
    ensures Due(db.jobs[Chosen(db).value], db.now) || Excess(db.jobs) > 20
  {
    hide Inv, CleanupClaim, HasActiveLease, Chosen, StampsSound, OfClass, CleaningJobs;
    var id := Chosen(db).value;
    ChosenMeaning(db);
    RowFacts(db, id);
    ClaimTouchesChosen(db, token, attempt);
    LeavingReadyLowersExcess(db.jobs, id, ClaimRow(db.jobs[id], token, db.now));
  }

  // ---------------------------------------------------------------- nobody waits forever

  /** Jobs being cleaned that come before a waiting one. */
  function Ahead(db: Db, b: Uuid): set<Uuid>
    requires b in db.jobs
  {
    set k | k in db.jobs && k != b && db.jobs[k].status == Cleaning && WaitsBefore(db.jobs[k], k, db.jobs[b], b)
  }

  /** Once the clock has moved past a waiting job's last update, nothing gets ahead of it, and every
      claim takes a job that was ahead and puts it behind. */
  lemma AheadShrinks(db: Db, a: Action, b: Uuid)
    requires Inv(db) && Allowed(db, a) && WaitingCleanup(db, b) && db.jobs[b].updatedAt < db.now
    requires b in Step(db, a).jobs && WaitingCleanup(Step(db, a), b) && Step(db, a).jobs[b].updatedAt == db.jobs[b].updatedAt
    ensures Ahead(Step(db, a), b) <= Ahead(db, b)
    ensures a.DoCleanupClaim? ==>
              Chosen(db).Some? && Chosen(db).value in Ahead(db, b) && Chosen(db).value !in Ahead(Step(db, a), b)
  {
    hide Inv, Step, HasActiveLease, Chosen, StatusClass, StampsSound;
    var db' := Step(db, a);
    StepKeepsInv(db, a);
    NewJobsDoNotClean(db, a);
    forall k | k in Ahead(db', b) ensures k in Ahead(db, b) {
      assert RowStep(db, k, db'.jobs[k]);
    }
    if a.DoCleanupClaim? {
      ClaimTakesFromAhead(db, a, b);
    }
  }

  lemma NewJobsDoNotClean(db: Db, a: Action)
    ensures forall k :: k in Step(db, a).jobs && k !in db.jobs ==> Step(db, a).jobs[k].status != Cleaning
  {
    hide HasActiveLease, Blocks, Step;
    if a.DoCreate? {
      CreatedRows(db, a);
    } else {
      CacheProperties.NoJobAppears(db, a);
    }
  }

  lemma CreatedRows(db: Db, a: Action)
    requires a.DoCreate?
    ensures forall k :: k in Step(db, a).jobs && k !in db.jobs ==> Step(db, a).jobs[k].status != Cleaning
  {
    hide Blocks;
  }

  lemma ClaimTakesFromAhead(db: Db, a: Action, b: Uuid)
    requires a.DoCleanupClaim? && WaitingCleanup(db, b) && db.jobs[b].updatedAt < db.now
    requires b in Step(db, a).jobs && Step(db, a).jobs[b].updatedAt == db.jobs[b].updatedAt
    ensures Chosen(db).Some? && Chosen(db).value in Ahead(db, b) && Chosen(db).value !in Ahead(Step(db, a), b)
  {
    hide HasActiveLease, Chosen, CleanupClaim;
    ChosenExactly(db);
    ClaimTouchesChosen(db, a.token, a.attempt);
    var c := Chosen(db).value;
    WaitOrder(db.jobs[c], c, db.jobs[b], b, db.jobs[c], c);
  }

  /** The job keeps waiting, untouched, all along the run. */
  ghost predicate StaysWaiting(db: Db, actions: seq<Action>, b: Uuid)
    decreases |actions|
  {
    && WaitingCleanup(db, b)
    && (actions != [] ==>
          && StaysWaiting(Step(db, actions[0]), actions[1..], b)
          && Step(db, actions[0]).jobs[b].updatedAt == db.jobs[b].updatedAt)
  }

  function Claims(actions: seq<Action>): nat {
    if actions == [] then 0 else (if actions[0].DoCleanupClaim? then 1 else 0) + Claims(actions[1..])
  }

  /** Starvation-freedom: while a job waits, whatever else runs, at most as many claims pass it as
      there were jobs ahead of it. */
  lemma {:induction false} WaitIsBounded(db: Db, actions: seq<Action>, b: Uuid)
    requires Inv(db) && AllowedRun(db, actions) && StaysWaiting(db, actions, b) && db.jobs[b].updatedAt < db.now
    ensures Claims(actions) <= |Ahead(db, b)|
    decreases |actions|
  {
    hide Inv, Step, WaitingCleanup, Ahead, Chosen;
    if actions != [] {
      var a, db' := actions[0], Step(db, actions[0]);
      WaitingIsJob(db, actions, b);
      AheadShrinks(db, a, b);
      StepKeepsInv(db, a);
      CacheProperties.TimeEvolves(db, a);
      WaitIsBounded(db', actions[1..], b);
      SmallerAhead(Ahead(db', b), Ahead(db, b), if a.DoCleanupClaim? then Chosen(db) else None);
    }
  }

  lemma WaitingIsJob(db: Db, actions: seq<Action>, b: Uuid)
    requires actions != [] && StaysWaiting(db, actions, b)
    ensures b in db.jobs && b in Step(db, actions[0]).jobs && WaitingCleanup(Step(db, actions[0]), b)
  {
  }

  lemma SmallerAhead(after: set<Uuid>, before: set<Uuid>, gone: Option<Uuid>)
    requires after <= before && (gone.Some? ==> gone.value in before && gone.value !in after)
    ensures |after| + (if gone.Some? then 1 else 0) <= |before|
  {
    if gone.Some? {
      SubsetSize(after, before - {gone.value});
    } else {
      SubsetSize(after, before);
    }
  }

  /** And no job is claimed twice meanwhile: one that is not ahead is never taken. */
  lemma {:induction false} NobodyPassesTwice(db: Db, actions: seq<Action>, b: Uuid, c: Uuid)
    requires Inv(db) && AllowedRun(db, actions) && StaysWaiting(db, actions, b) && db.jobs[b].updatedAt < db.now
    requires c !in Ahead(db, b) && c != b
    ensures Chosen(Run(db, actions)) != Some(c)
    decreases |actions|
  {
    hide Inv, Step, WaitingCleanup, Ahead, Chosen;
    WaitingNow(db, actions, b);
    if actions == [] {
      OnlyAheadIsChosen(db, b, c);
    } else {
      WaitingIsJob(db, actions, b);
      AheadShrinks(db, actions[0], b);
      StepKeepsInv(db, actions[0]);
      CacheProperties.TimeEvolves(db, actions[0]);
      NobodyPassesTwice(Step(db, actions[0]), actions[1..], b, c);
    }
  }

  lemma WaitingNow(db: Db, actions: seq<Action>, b: Uuid)
    requires StaysWaiting(db, actions, b)
    ensures b in db.jobs && WaitingCleanup(db, b)
  {
  }

  lemma OnlyAheadIsChosen(db: Db, b: Uuid, c: Uuid)
    requires b in db.jobs && WaitingCleanup(db, b) && c !in Ahead(db, b) && c != b
    ensures Chosen(db) != Some(c)
  {
    hide HasActiveLease, Chosen;
    ChosenExactly(db);
  }

  // ---------------------------------------------------------------- attempts

  /** A job's cleanup attempts are numbered 1..k without gaps. */
  lemma {:induction false} AttemptNumbers(attempts: map<Uuid, Attempt>, job: Uuid, no: int)
    requires AttemptsSound(attempts)
    ensures HasNo(attempts, job, no) <==> 1 <= no < NextAttemptNo(attempts, job)
  {
    hide NextAttemptNo;
    LastNo(attempts, job);
    if 1 <= no < NextAttemptNo(attempts, job) {
      EarlierNo(attempts, job, NextAttemptNo(attempts, job) - 1, no);
    }
  }

  lemma {:induction false} EarlierNo(attempts: map<Uuid, Attempt>, job: Uuid, k: int, no: int)
    requires AttemptsSound(attempts) && HasNo(attempts, job, k) && 1 <= no <= k
    ensures HasNo(attempts, job, no)
    decreases k
  {
    if no < k {
      var a :| a in attempts && attempts[a].job == job && attempts[a].no == k;
      EarlierNo(attempts, job, k - 1, no);
    }
  }

  function NumberedUpTo(attempts: map<Uuid, Attempt>, job: Uuid, n: nat): set<Uuid> {
    set a | a in attempts && attempts[a].job == job && attempts[a].no <= n
  }

  lemma OneMore(attempts: map<Uuid, Attempt>, job: Uuid, n: nat) returns (a: Uuid)
    requires AttemptsSound(attempts) && n > 0
    ensures NumberedUpTo(attempts, job, n) <= NumberedUpTo(attempts, job, n - 1) + {a}
  {
    hide HasNo;
    a := if x :| x in attempts && attempts[x].job == job && attempts[x].no == n then x else 0;
    forall b | b in NumberedUpTo(attempts, job, n) ensures b in NumberedUpTo(attempts, job, n - 1) + {a} {
      assert b in attempts && attempts[b].job == job;
      assert attempts[b].no == n ==> SameNo(attempts[a], attempts[b]);
    }
  }

  lemma OneLarger(after: set<Uuid>, before: set<Uuid>, a: Uuid)
    requires after <= before + {a}
    ensures |after| <= |before| + 1
  {
    SubsetSize(after, before + {a});
  }

  lemma {:induction false} AtMostN(attempts: map<Uuid, Attempt>, job: Uuid, n: nat)
    requires AttemptsSound(attempts)
    ensures |NumberedUpTo(attempts, job, n)| <= n
  {
    hide AttemptsSound, NumberedUpTo;
    if n == 0 {
      NoneNumberedZero(attempts, job);
    } else {
      AtMostN(attempts, job, n - 1);
      var a := OneMore(attempts, job, n);
      OneLarger(NumberedUpTo(attempts, job, n), NumberedUpTo(attempts, job, n - 1), a);
    }
  }

  lemma NoneNumberedZero(attempts: map<Uuid, Attempt>, job: Uuid)
    requires AttemptsSound(attempts)
    ensures NumberedUpTo(attempts, job, 0) == {}
  {
    hide HasNo;
  }

  function BusyAttempts(attempts: map<Uuid, Attempt>, job: Uuid): set<Uuid> {
    set a | a in attempts && attempts[a].job == job && attempts[a].busy
  }

  /** Over its whole life a job is given back to the queue as busy at most 59 times, and it has at
      most one attempt running. */
  lemma BusyIsBounded(actions: seq<Action>, job: Uuid)
    requires AllowedRun(EMPTY, actions)
    ensures var attempts := Run(EMPTY, actions).attempts;
            && |BusyAttempts(attempts, job)| <= BUSY_MAX_ATTEMPTS - 1
            && (forall a, b :: a in attempts && b in attempts && BothRunning(attempts[a], attempts[b]) ==> a == b)
  {
    EmptyIsSound();
    RunKeepsInv(EMPTY, actions);
    var attempts := Run(EMPTY, actions).attempts;
    AtMostN(attempts, job, BUSY_MAX_ATTEMPTS - 1);
    SubsetSize(BusyAttempts(attempts, job), NumberedUpTo(attempts, job, BUSY_MAX_ATTEMPTS - 1));
  }
}
