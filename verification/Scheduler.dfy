/** The beat tick: which jobs it picks, what one undisturbed tick does, and its Redis lock. */
module Scheduler {
  import opened Prelude
  import opened QueueLedger

  type Jobs = map<Id, ScheduledJob>

  /** The next occurrence of a cron expression after a time, or None for a malformed expression. */
  type Cron = (string, int) -> Option<int>

  predicate DueAt(job: ScheduledJob, now: int) {
    job.enabled && job.nextRunAt.Some? && job.nextRunAt.value <= now
  }

  function NextAt(jobs: Jobs, j: Id): int {
    if j in jobs && jobs[j].nextRunAt.Some? then jobs[j].nextRunAt.value else 0
  }

  function Due(jobs: Jobs, now: int): set<Id> {
    set j | j in jobs && DueAt(jobs[j], now)
  }

  /** The answer of the due scan: the earliest due jobs in order, as many as the limit allows. */
  ghost predicate IsDueList(jobs: Jobs, now: int, limit: nat, picked: seq<Id>) {
    && Distinct(picked)
    && (forall j :: j in picked ==> j in Due(jobs, now))
    && |picked| == Min(limit, |Due(jobs, now)|)
    && (forall a, b :: 0 <= a < b < |picked| ==> NextAt(jobs, picked[a]) <= NextAt(jobs, picked[b]))
    && (forall j, k :: j in Due(jobs, now) && j !in picked && k in picked
          ==> NextAt(jobs, k) <= NextAt(jobs, j))
  }

  /** The earliest job of a nonempty set of due jobs. */
  method Earliest(jobs: Jobs, among: set<Id>) returns (first: Id)
    requires among != {} && forall j :: j in among ==> j in jobs && jobs[j].nextRunAt.Some?
    ensures first in among
    ensures forall j :: j in among ==> NextAt(jobs, first) <= NextAt(jobs, j)
  {
    first :| first in among;
    var rest := among - {first};
    while rest != {}
      invariant rest <= among && first in among
      invariant forall j :: j in among - rest ==> NextAt(jobs, first) <= NextAt(jobs, j)
      decreases rest
    {
      var j :| j in rest;
      if NextAt(jobs, j) < NextAt(jobs, first) { first := j; }
      rest := rest - {j};
    }
  }

  method ListDue(jobs: Jobs, now: int, limit: nat) returns (picked: seq<Id>)
    ensures IsDueList(jobs, now, limit, picked)
  {
    picked := [];
    var rest := Due(jobs, now);
    while rest != {} && |picked| < limit
      invariant rest <= Due(jobs, now)
      invariant forall j :: j in Due(jobs, now) <==> j in picked || j in rest
      invariant forall j :: j in picked ==> j !in rest
      invariant Distinct(picked) && |picked| + |rest| == |Due(jobs, now)| && |picked| <= limit
      invariant forall a, b :: 0 <= a < b < |picked| ==> NextAt(jobs, picked[a]) <= NextAt(jobs, picked[b])
      invariant forall j, k :: j in rest && k in picked ==> NextAt(jobs, k) <= NextAt(jobs, j)
      decreases rest
    {
      var next := Earliest(jobs, rest);
      picked := picked + [next];
      rest := rest - {next};
    }
  }

  // ---------------------------------------------------------------- one undisturbed tick

  /** A job after its turn in a tick: a valid cron moves it on, a malformed one leaves it due. */
  function AfterTurn(job: ScheduledJob, cron: Cron, now: int): ScheduledJob {
    job.(lastRunAt := Some(now), nextRunAt := if cron(job.cron, now).Some? then cron(job.cron, now) else job.nextRunAt)
  }

  /** One turn: enqueue the job under fresh ids, then move it to its next time. */
  function Turn(db: Db, job: Id, cron: Cron, now: int, maxAttempts: int, id: Id): Db {
    if job !in db.jobs then db
    else
      var row := db.jobs[job];
      var queued := EnqueueJobDb(db, job, row.niche, id, id, None, maxAttempts, now, now).0;
      var next := cron(row.cron, now);
      if next.Some? then AdvanceJobDb(queued, job, row.niche, next.value).0 else queued
  }

  function Turns(db: Db, picked: seq<Id>, cron: Cron, now: int, maxAttempts: int, firstId: Id): Db {
    if picked == [] then db
    else
      var n := |picked| - 1;
      Turn(Turns(db, picked[..n], cron, now, maxAttempts, firstId), picked[n], cron, now, maxAttempts, firstId + n)
  }

  /** Ids from `firstId` on are unused. */
  predicate Unused(db: Db, firstId: Id) {
    && (forall r :: r in db.runs ==> r < firstId)
    && (forall i :: i in db.items ==> i < firstId)
  }

  ghost predicate JobsAfter(jobs: Jobs, jobs': Jobs, picked: seq<Id>, cron: Cron, now: int) {
    && jobs'.Keys == jobs.Keys
    && forall j :: j in jobs ==> jobs'[j] == if j in picked then AfterTurn(jobs[j], cron, now) else jobs[j]
  }

  /** Each picked job has one pending run and one queued item naming it; nothing else was written. */
  ghost predicate WorkAfter(db: Db, db': Db, picked: seq<Id>, now: int, maxAttempts: int, firstId: Id) {
    && (forall r :: r in db'.runs ==> r in db.runs || firstId <= r < firstId + |picked|)
    && (forall i :: i in db'.items ==> i in db.items || firstId <= i < firstId + |picked|)
    && (forall r :: r in db.runs ==> r in db'.runs && db'.runs[r] == db.runs[r])
    && (forall i :: i in db.items ==> i in db'.items && db'.items[i] == db.items[i])
    && (forall k :: 0 <= k < |picked| ==> QueuedFor(db, db', picked[k], firstId + k, now, maxAttempts))
  }

  ghost predicate QueuedFor(db: Db, db': Db, job: Id, id: Id, now: int, maxAttempts: int) {
    && job in db.jobs && id in db'.runs && id in db'.items
    && db'.runs[id] == FreshRun(db.jobs[job].niche, job, now)
    && db'.items[id] == FreshItem(db.jobs[job].niche, db.jobs[job].queue, JobRunRef(id), maxAttempts, now)
  }

  lemma {:induction false} TurnsJobs(db: Db, picked: seq<Id>, cron: Cron, now: int, maxAttempts: int, firstId: Id)
    requires Distinct(picked) && forall j :: j in picked ==> j in db.jobs && db.jobs[j].enabled
    ensures JobsAfter(db.jobs, Turns(db, picked, cron, now, maxAttempts, firstId).jobs, picked, cron, now)
    decreases |picked|
  {
    if picked != [] {
      var n := |picked| - 1;
      TurnsJobs(db, picked[..n], cron, now, maxAttempts, firstId);
      TurnEffect(Turns(db, picked[..n], cron, now, maxAttempts, firstId), picked[n], cron, now, maxAttempts, firstId + n);
      forall j ensures j in picked <==> j in picked[..n] || j == picked[n] {}
    }
  }

  lemma {:induction false} TurnsWork(db: Db, picked: seq<Id>, cron: Cron, now: int, maxAttempts: int, firstId: Id)
    requires Unused(db, firstId) && Distinct(picked)
    requires forall j :: j in picked ==> j in db.jobs && db.jobs[j].enabled
    ensures WorkAfter(db, Turns(db, picked, cron, now, maxAttempts, firstId), picked, now, maxAttempts, firstId)
    decreases |picked|
  {
    if picked != [] {
      var n := |picked| - 1;
      TurnsWork(db, picked[..n], cron, now, maxAttempts, firstId);
      var before := Turns(db, picked[..n], cron, now, maxAttempts, firstId);
      assert picked[n] in before.jobs && before.jobs[picked[n]] == db.jobs[picked[n]] by {
        TurnsJobs(db, picked[..n], cron, now, maxAttempts, firstId);
      }
      TurnEffect(before, picked[n], cron, now, maxAttempts, firstId + n);
      WorkGrows(db, before, Turns(db, picked, cron, now, maxAttempts, firstId), picked[..n], picked[n], now, maxAttempts,
                firstId);
      assert picked[..n] + [picked[n]] == picked;
    }
  }

  lemma WorkGrows(db: Db, before: Db, after: Db, done: seq<Id>, job: Id, now: int, maxAttempts: int, firstId: Id)
    requires Unused(db, firstId) && WorkAfter(db, before, done, now, maxAttempts, firstId)
    requires job in db.jobs
    requires after.runs == before.runs[firstId + |done| := FreshRun(db.jobs[job].niche, job, now)]
    requires after.items == before.items[firstId + |done| :=
               FreshItem(db.jobs[job].niche, db.jobs[job].queue, JobRunRef(firstId + |done|), maxAttempts, now)]
    ensures WorkAfter(db, after, done + [job], now, maxAttempts, firstId)
  {
    var picked := done + [job];
    forall k | 0 <= k < |picked| ensures QueuedFor(db, after, picked[k], firstId + k, now, maxAttempts) {
      if k < |done| { assert QueuedFor(db, before, done[k], firstId + k, now, maxAttempts); }
    }
  }

  lemma TurnEffect(db: Db, job: Id, cron: Cron, now: int, maxAttempts: int, id: Id)
    requires job in db.jobs && db.jobs[job].enabled
    ensures
      var db' := Turn(db, job, cron, now, maxAttempts, id);
      var row := db.jobs[job];
      && db'.jobs == db.jobs[job := AfterTurn(row, cron, now)]
      && db'.runs == db.runs[id := FreshRun(row.niche, job, now)]
      && db'.items == db.items[id := FreshItem(row.niche, row.queue, JobRunRef(id), maxAttempts, now)]
  {
  }

  method DoTurn(store: AutomationStore, job: Id, cron: Cron, now: int, maxAttempts: int, id: Id)
    requires id !in store.runs && id !in store.items && job in store.jobs
    modifies store
    ensures store.Tables() == Turn(old(store.Tables()), job, cron, now, maxAttempts, id)
  {
    var row := store.jobs[job];
    var outcome := store.EnqueueJob(job, row.niche, id, id, None, maxAttempts, now, now);
    var next := cron(row.cron, now);
    if next.Some? {
      outcome := store.AdvanceJob(job, row.niche, next.value);
    }
  }

  method DoTurns(store: AutomationStore, picked: seq<Id>, cron: Cron, now: int, maxAttempts: int, firstId: Id)
    requires Unused(store.Tables(), firstId) && Distinct(picked)
    requires forall j :: j in picked ==> j in store.jobs && store.jobs[j].enabled
    modifies store
    ensures store.Tables() == Turns(old(store.Tables()), picked, cron, now, maxAttempts, firstId)
  {
    ghost var db := store.Tables();
    var n := 0;
    while n < |picked|
      invariant 0 <= n <= |picked|
      invariant store.Tables() == Turns(db, picked[..n], cron, now, maxAttempts, firstId)
    {
      TurnReady(db, picked, n, cron, now, maxAttempts, firstId);
      DoTurn(store, picked[n], cron, now, maxAttempts, firstId + n);
      assert picked[..n + 1][..n] == picked[..n];
      n := n + 1;
    }
    assert picked[..n] == picked;
  }

  /** The tick as the scheduler runs it: scan, then one turn after another. */
  method RunBeatTick(store: AutomationStore, cron: Cron, now: int, limit: nat, maxAttempts: int, firstId: Id)
    returns (picked: seq<Id>)
    requires Unused(store.Tables(), firstId)
    modifies store
    ensures IsDueList(old(store.jobs), now, limit, picked)
    ensures JobsAfter(old(store.jobs), store.jobs, picked, cron, now)
    ensures WorkAfter(old(store.Tables()), store.Tables(), picked, now, maxAttempts, firstId)
  {
    picked := ListDue(store.jobs, now, limit);
    ghost var db := store.Tables();
    DoTurns(store, picked, cron, now, maxAttempts, firstId);
    TurnsJobs(db, picked, cron, now, maxAttempts, firstId);
    TurnsWork(db, picked, cron, now, maxAttempts, firstId);
  }

  lemma TurnReady(db: Db, picked: seq<Id>, n: nat, cron: Cron, now: int, maxAttempts: int, firstId: Id)
    requires Unused(db, firstId) && Distinct(picked) && n < |picked|
    requires forall j :: j in picked ==> j in db.jobs && db.jobs[j].enabled
    ensures
      var before := Turns(db, picked[..n], cron, now, maxAttempts, firstId);
      && firstId + n !in before.runs && firstId + n !in before.items
      && picked[n] in before.jobs
  {
    TurnsJobs(db, picked[..n], cron, now, maxAttempts, firstId);
    TurnsWork(db, picked[..n], cron, now, maxAttempts, firstId);
  }

  /** A job leaves the due set in a tick exactly if it was picked and its cron expression is valid. */
  lemma DueAfterTick(jobs: Jobs, jobs': Jobs, cron: Cron, now: int, limit: nat, picked: seq<Id>)
    requires forall expr, base :: cron(expr, base).Some? ==> cron(expr, base).value > base
    requires IsDueList(jobs, now, limit, picked) && JobsAfter(jobs, jobs', picked, cron, now)
    ensures forall j :: j in Due(jobs', now) <==>
              j in Due(jobs, now) && !(j in picked && cron(jobs[j].cron, now).Some?)
  {
  }

  /** When every expression is valid, a completed tick clears as many due jobs as its limit lets it. */
  lemma CompletedTickClears(jobs: Jobs, jobs': Jobs, cron: Cron, now: int, limit: nat, picked: seq<Id>)
    requires forall expr, base :: cron(expr, base).Some? ==> cron(expr, base).value > base
    requires IsDueList(jobs, now, limit, picked) && JobsAfter(jobs, jobs', picked, cron, now)
    requires forall j :: j in jobs ==> cron(jobs[j].cron, now).Some?
    ensures |Due(jobs', now)| == |Due(jobs, now)| - Min(limit, |Due(jobs, now)|)
  {
    DueAfterTick(jobs, jobs', cron, now, limit, picked);
    DistinctSize(picked);
    assert Due(jobs', now) == Due(jobs, now) - Elements(picked);
    assert Elements(picked) <= Due(jobs, now);
    assert |Due(jobs, now) - Elements(picked)| == |Due(jobs, now)| - |Elements(picked)|;
  }
}
