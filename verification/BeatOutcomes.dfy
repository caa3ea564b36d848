/** What a beat tick picks and writes, and what each of its steps does, told field by field. */
module BeatOutcomes {
  import opened Prelude
  import opened QueueLedger
  import opened Scheduler
  import opened BeatProtocol

  // ---------------------------------------------------------------- an undisturbed tick

  /** Enabled, with a next time, and that time has come. */
  predicate TimeHasCome(jobs: Jobs, j: Id, now: int) {
    j in jobs && jobs[j].enabled && jobs[j].nextRunAt.Some? && jobs[j].nextRunAt.value <= now
  }

  /**
   The scan picks enabled jobs whose time has come, each once and earliest first. It leaves one out only if the limit is
   reached, and then none that was picked comes later.
   */
  lemma Picking(jobs: Jobs, now: int, limit: nat, picked: seq<Id>)
    requires IsDueList(jobs, now, limit, picked)
    ensures forall j :: j in picked ==> TimeHasCome(jobs, j, now)
    ensures forall a, b :: 0 <= a < b < |picked| ==>
              && picked[a] != picked[b] && TimeHasCome(jobs, picked[a], now) && TimeHasCome(jobs, picked[b], now)
              && jobs[picked[a]].nextRunAt.value <= jobs[picked[b]].nextRunAt.value
    ensures |picked| <= limit
    ensures forall j :: TimeHasCome(jobs, j, now) && j !in picked ==>
              && |picked| == limit
              && forall k :: k in picked ==>
                   TimeHasCome(jobs, k, now) && jobs[k].nextRunAt.value <= jobs[j].nextRunAt.value
  {
    forall j | j in picked ensures TimeHasCome(jobs, j, now) { assert j in Due(jobs, now); }
    forall a, b | 0 <= a < b < |picked|
      ensures TimeHasCome(jobs, picked[a], now) && TimeHasCome(jobs, picked[b], now)
      ensures jobs[picked[a]].nextRunAt.value <= jobs[picked[b]].nextRunAt.value
    {
      assert picked[a] in Due(jobs, now) && picked[b] in Due(jobs, now);
      assert NextAt(jobs, picked[a]) <= NextAt(jobs, picked[b]);
    }
    forall j | TimeHasCome(jobs, j, now) && j !in picked
      ensures |picked| == limit
      ensures forall k :: k in picked ==> TimeHasCome(jobs, k, now) && jobs[k].nextRunAt.value <= jobs[j].nextRunAt.value
    {
      assert j in Due(jobs, now);
      LeftOut(jobs, now, limit, picked, j);
      forall k | k in picked
        ensures TimeHasCome(jobs, k, now) && jobs[k].nextRunAt.value <= jobs[j].nextRunAt.value
      {
        assert k in Due(jobs, now) && NextAt(jobs, k) <= NextAt(jobs, j);
      }
    }
  }

  lemma LeftOut(jobs: Jobs, now: int, limit: nat, picked: seq<Id>, j: Id)
    requires IsDueList(jobs, now, limit, picked) && j in Due(jobs, now) && j !in picked
    ensures |picked| == limit
  {
    DistinctSize(picked);
    assert Elements(picked) <= Due(jobs, now) - {j};
    SubsetSize(Elements(picked), Due(jobs, now) - {j});
  }

  /**
   A tick stamps each picked job and moves it to the time its expression gives, if it gives one. It adds one pending run
   and one queued item that names it, for now and with the cap, and writes nothing else.
   */
  lemma Ticking(db: Db, db': Db, picked: seq<Id>, cron: Cron, now: int, cap: int, firstId: Id)
    requires JobsAfter(db.jobs, db'.jobs, picked, cron, now) && WorkAfter(db, db', picked, now, cap, firstId)
    ensures forall j :: j in db.jobs <==> j in db'.jobs
    ensures forall j :: j in db.jobs ==>
              var next := cron(db.jobs[j].cron, now);
              db'.jobs[j] ==
              if j !in picked then db.jobs[j]
              else if next.None? then db.jobs[j].(lastRunAt := Some(now))
              else db.jobs[j].(lastRunAt := Some(now), nextRunAt := next)
    ensures forall k :: 0 <= k < |picked| ==> NewWork(db, db', picked[k], firstId + k, now, cap)
    ensures forall r :: r in db.runs ==> r in db'.runs && db'.runs[r] == db.runs[r]
    ensures forall i :: i in db.items ==> i in db'.items && db'.items[i] == db.items[i]
    ensures forall r :: r in db'.runs && r !in db.runs ==> firstId <= r < firstId + |picked|
    ensures forall i :: i in db'.items && i !in db.items ==> firstId <= i < firstId + |picked|
  {
    forall k | 0 <= k < |picked| ensures NewWork(db, db', picked[k], firstId + k, now, cap) {
      assert QueuedFor(db, db', picked[k], firstId + k, now, cap);
    }
  }

  /** A pending run of the job under the id, and a queued item that names it. */
  predicate NewWork(db: Db, db': Db, j: Id, id: Id, now: int, cap: int) {
    && j in db.jobs && id in db'.runs && id in db'.items
    && var job := db.jobs[j];
       && db'.runs[id] == JobRun(job.niche, j, now, Pending, 0, None, None, None, None)
       && db'.items[id] == QueueItem(job.niche, job.queue, JobRunRef(id), Queued, 0, cap, now, None, None)
  }

  // ---------------------------------------------------------------- the steps of overlapping ticks

  /** A tick starts unless Redis holds a key that is still alive; with Redis it leaves a key with the full lifetime. */
  lemma Acquiring(w: World, id: Id)
    requires id !in w.ticks
    ensures
      var w' := Step(w, Acquire(id));
      if w.redis && w.lock.Some? && w.clock < w.lock.value then w' == w
      else
        && w' == w.(lock := w'.lock, ticks := w'.ticks)
        && w'.lock == (if w.redis then Some(w.clock + w.ttl) else w.lock)
        && w'.ticks == w.ticks[id := Tick(w.clock, w.clock, [], false, false)]
  {
  }

  /** The scan takes up to the limit of jobs whose time has come, and remembers when it looked. */
  lemma Listing(w: World, id: Id, picked: seq<Id>)
    ensures
      var w' := Step(w, List(id, picked));
      if id in w.ticks && !w.ticks[id].listed && |picked| <= w.limit
         && forall j :: j in picked ==> TimeHasCome(w.queue.db.jobs, j, w.clock)
      then w' == w.(ticks := w.ticks[id := Tick(w.ticks[id].acquired, w.clock, picked, true, false)])
      else w' == w
  {
    assert forall j :: j in Due(w.queue.db.jobs, w.clock) <==> TimeHasCome(w.queue.db.jobs, j, w.clock);
  }

  predicate AtTurn(w: World, id: Id) {
    id in w.ticks && w.ticks[id].listed && w.ticks[id].todo != []
  }

  /** The first job on a tick's list gets its run and item, at the clock's time; if it cannot, the tick ends. */
  lemma EnqueueingNext(w: World, id: Id, run: Id, item: Id)
    requires AtTurn(w, id) && !w.ticks[id].enqueued && run !in w.queue.db.runs && item !in w.queue.db.items
    ensures
      var (w', j, db) := (Step(w, EnqueueNext(id, run, item)), w.ticks[id].todo[0], w.queue.db);
      if j in db.jobs && db.jobs[j].enabled then
        var row := db.jobs[j];
        && w' == w.(queue := w'.queue, ticks := w.ticks[id := w.ticks[id].(enqueued := true)])
        && w'.queue.deliveries == w.queue.deliveries
        && w'.queue.db.jobs == db.jobs[j := row.(lastRunAt := Some(w.clock))]
        && w'.queue.db.runs == db.runs[run := JobRun(row.niche, j, w.clock, Pending, 0, None, None, None, None)]
        && w'.queue.db.items ==
           db.items[item := QueueItem(row.niche, row.queue, JobRunRef(run), Queued, 0, w.maxAttempts, w.clock, None, None)]
      else w' == w.(ticks := w.ticks - {id}, lock := if w.redis then None else w.lock)
  {
  }

  /** Then it is moved to its next time, or left where it is when its expression is malformed, and taken off the list. */
  lemma MovingOn(w: World, id: Id, next: Option<int>)
    requires AtTurn(w, id) && w.ticks[id].enqueued && (next.Some? ==> next.value > w.ticks[id].current)
    ensures
      var (w', t, j) := (Step(w, MoveOn(id, next)), w.ticks[id], w.ticks[id].todo[0]);
      var jobs := w.queue.db.jobs;
      if next.Some? && j !in jobs then w' == w.(ticks := w.ticks - {id}, lock := if w.redis then None else w.lock)
      else
        && w' == w.(queue := w'.queue, ticks := w.ticks[id := t.(todo := t.todo[1..], enqueued := false)])
        && w'.queue == w.queue.(db := w'.queue.db) && w'.queue.db == w.queue.db.(jobs := w'.queue.db.jobs)
        && w'.queue.db.jobs == if next.None? then jobs else jobs[j := jobs[j].(nextRunAt := next)]
  {
  }

  /** A tick whose list is done ends; one that fails ends at any point. Either deletes the key if it reaches Redis. */
  lemma Ending(w: World, id: Id, reachable: bool)
    ensures
      var gone := w.(ticks := w.ticks - {id}, lock := if w.redis && reachable then None else w.lock);
      && Step(w, Release(id, reachable)) ==
         (if id in w.ticks && w.ticks[id].listed && w.ticks[id].todo == [] then gone else w)
      && Step(w, Abort(id, reachable)) == (if id in w.ticks then gone else w)
  {
  }

  /** A crash ends a tick and leaves its key; operators switch jobs on and off; time passes. */
  lemma Around(w: World, id: Id, j: Id, enabled: bool, seconds: nat)
    ensures Step(w, Crash(id)) == w.(ticks := w.ticks - {id})
    ensures Step(w, Elapse(seconds)) == w.(clock := w.clock + seconds)
    ensures
      var (w', jobs) := (Step(w, SetEnabled(j, enabled)), w.queue.db.jobs);
      w' == w.(queue := w.queue.(db := w.queue.db.(
                 jobs := if j in jobs then jobs[j := jobs[j].(enabled := enabled)] else jobs)))
  {
  }
}
