/**
 What each step does to the rows, told field by field: the outcomes of claiming, starting, failing, finishing,
 cancelling, retrying and enqueueing, with anything else allowed to happen between the steps of a delivery.
 */
module QueueOutcomes {
  import opened Prelude
  import opened QueueLedger
  import opened QueueProtocol

  // ---------------------------------------------------------------- claiming and starting

  /** A queued item is claimed and its attempt counted; a claimed one is handed out as it is; the rest is refused. */
  lemma Claiming(w: World, d: Id, i: Id)
    requires d !in w.deliveries
    ensures
      var w' := Step(w, Work(d, Deliver(i)));
      if i in w.db.items && w.db.items[i].state == Queued then
        var row := w.db.items[i];
        && w'.db == Db(w.db.jobs, w.db.runs, w.db.items[i := row.(state := Claimed, attempts := row.attempts + 1)])
        && w'.deliveries ==
           w.deliveries[d := Delivery(i, true, row.attempts + 1, row.maxAttempts, row.payload, Resolving)]
      else if i in w.db.items && w.db.items[i].state == Claimed then
        var row := w.db.items[i];
        && w'.db == w.db
        && w'.deliveries == w.deliveries[d := Delivery(i, false, row.attempts, row.maxAttempts, row.payload, Resolving)]
      else w' == w
  {
  }

  /** The run a delivery works for, and whether it starts it, executes at once or gives up. */
  lemma Resolved(w: World, d: Id, known: bool)
    requires d in w.deliveries && w.deliveries[d].phase.Resolving?
    ensures
      var (job, w') := (w.deliveries[d], Step(w, Work(d, Resolve(known))));
      var run := if job.payload.JobRunRef? then (if job.payload.run in w.db.runs then Some(job.payload.run) else None)
                 else if job.payload.OverrideRef? then Some(job.payload.run)
                 else None;
      && w'.db == w.db && d in w'.deliveries
      && w'.deliveries[d] == job.(phase :=
           if !known then Writing(run, GiveUp("unknown executor"))
           else if job.newly && run.Some? then Starting(run.value)
           else Executing(run))
  {
  }

  /** Only a pending run starts, at the time given and with one more attempt. */
  lemma Starts(w: World, d: Id, at: int)
    requires d in w.deliveries && w.deliveries[d].phase.Starting?
    ensures
      var (r, w') := (w.deliveries[d].phase.start, Step(w, Work(d, Start(at))));
      && w'.db.jobs == w.db.jobs && w'.db.items == w.db.items
      && w'.deliveries == w.deliveries[d := w.deliveries[d].(phase := Executing(Some(r)))]
      && if r in w.db.runs && w.db.runs[r].status == Pending then
           var row := w.db.runs[r];
           w'.db.runs == w.db.runs[r := row.(status := Running, startedAt := Some(at), attempts := row.attempts + 1)]
         else w'.db.runs == w.db.runs
  {
  }

  predicate Watched(w: World, i: Id) {
    i in w.db.items && i in w.tally
  }

  predicate FindsClaimed(w: World, e: Event, i: Id) {
    && e.Work? && e.step == Deliver(i) && e.delivery !in w.deliveries
    && i in w.db.items && w.db.items[i].state == Claimed
  }

  /** What the tally of an item counts: its claims, the deliveries that found it claimed, and its returns from failure. */
  lemma Counting(w: World, e: Event, i: Id)
    requires Watched(w, i)
    ensures
      var w' := Step(w, e);
      && Watched(w', i)
      && var (from, to, t) := (w.db.items[i].state, w'.db.items[i].state, w.tally[i]);
         w'.tally[i] == Tally(t.claims + OneIf(from == Queued && to == Claimed), t.found + OneIf(FindsClaimed(w, e, i)),
                              t.retries + OneIf(from == Failed && to == Queued))
  {
    if e.Work? { CountingWork(w, e, i); } else { CountingOthers(w, e, i); }
  }

  lemma CountingWork(w: World, e: Event, i: Id)
    requires Watched(w, i) && e.Work?
    ensures
      var w' := Step(w, e);
      && Watched(w', i)
      && var (from, to, t) := (w.db.items[i].state, w'.db.items[i].state, w.tally[i]);
         w'.tally[i] == Tally(t.claims + OneIf(from == Queued && to == Claimed), t.found + OneIf(FindsClaimed(w, e, i)),
                              t.retries + OneIf(from == Failed && to == Queued))
  {
  }

  lemma CountingOthers(w: World, e: Event, i: Id)
    requires Watched(w, i) && !e.Work?
    ensures
      var w' := Step(w, e);
      && Watched(w', i)
      && var (from, to, t) := (w.db.items[i].state, w'.db.items[i].state, w.tally[i]);
         w'.tally[i] == Tally(t.claims + OneIf(from == Queued && to == Claimed), t.found,
                              t.retries + OneIf(from == Failed && to == Queued))
  {
  }

  // ---------------------------------------------------------------- failing and finishing

  /** Attempts remain, going by what the delivery saw when it claimed. */
  predicate MayRetry(d: Delivery) {
    0 < d.limit && d.seen < d.limit
  }

  /** Between its steps nobody touches a delivery. */
  predicate StillAt(w: World, w': World, d: Id) {
    d in w.deliveries && d in w'.deliveries && w'.deliveries[d] == w.deliveries[d]
  }

  /**
   An execution fails at `at` and may be retried. Whatever happens before its write, an item that is then still claimed
   goes back to the queue for the time of the failure plus the drawn delay, with the error and everything else as it
   was; a run that is still running goes back to pending.
   */
  lemma RetryableFailure(w: World, w2: World, d: Id, error: string, delay: nat, at: int, now: int)
    requires d in w.deliveries && w.deliveries[d].phase.Executing? && MayRetry(w.deliveries[d])
    requires StillAt(Step(w, Work(d, Finish(Bad(error, true), delay, at))), w2, d)
    ensures
      var (i, run, w3) := (w.deliveries[d].item, w.deliveries[d].phase.run, Step(w2, Work(d, Write(now))));
      && w3.db.jobs == w2.db.jobs && w3.deliveries == w2.deliveries - {d}
      && w3.db.items == (
           if i in w2.db.items && w2.db.items[i].state == Claimed
           then w2.db.items[i := w2.db.items[i].(state := Queued, runAt := at + delay, error := Some(error))]
           else w2.db.items)
      && w3.db.runs == (
           if run.Some? && run.value in w2.db.runs && w2.db.runs[run.value].status == Running
           then w2.db.runs[run.value :=
                  w2.db.runs[run.value].(status := Pending, startedAt := None, error := Some(error))]
           else w2.db.runs)
  {
    var w1 := Step(w, Work(d, Finish(Bad(error, true), delay, at)));
    assert w1.deliveries[d].phase == Writing(w.deliveries[d].phase.run, Requeue(at + delay, error));
    RequeueWrites(w2, d, now);
  }

  lemma RequeueWrites(w: World, d: Id, now: int)
    requires d in w.deliveries && w.deliveries[d].phase.Writing? && w.deliveries[d].phase.ending.Requeue?
    ensures
      var (i, run) := (w.deliveries[d].item, w.deliveries[d].phase.run);
      var (next, error) := (w.deliveries[d].phase.ending.next, w.deliveries[d].phase.ending.problem);
      var w' := Step(w, Work(d, Write(now)));
      && w'.db.jobs == w.db.jobs && w'.deliveries == w.deliveries - {d}
      && w'.db.items == (
           if i in w.db.items && w.db.items[i].state == Claimed
           then w.db.items[i := w.db.items[i].(state := Queued, runAt := next, error := Some(error))] else w.db.items)
      && w'.db.runs == (
           if run.Some? && run.value in w.db.runs && w.db.runs[run.value].status == Running
           then w.db.runs[run.value := w.db.runs[run.value].(status := Pending, startedAt := None, error := Some(error))]
           else w.db.runs)
  {
  }

  /** A failure for good, or with the attempts used up: item and run fail at the time of the write, with the error. */
  lemma FinalFailure(w: World, w2: World, d: Id, error: string, retryable: bool, delay: nat, at: int, now: int)
    requires d in w.deliveries && w.deliveries[d].phase.Executing? && !(retryable && MayRetry(w.deliveries[d]))
    requires StillAt(Step(w, Work(d, Finish(Bad(error, retryable), delay, at))), w2, d)
    ensures
      var (i, run, w3) := (w.deliveries[d].item, w.deliveries[d].phase.run, Step(w2, Work(d, Write(now))));
      && w3.db.jobs == w2.db.jobs && w3.deliveries == w2.deliveries - {d}
      && w3.db.items == FailedItems(w2.db.items, i, error, now)
      && w3.db.runs == FailedRuns(w2.db.runs, run, error, now)
  {
    var w1 := Step(w, Work(d, Finish(Bad(error, retryable), delay, at)));
    assert w1.deliveries[d].phase == Writing(w.deliveries[d].phase.run, GiveUp(error));
    GiveUpWrites(w2, d, now);
  }

  /** The items with a claimed one failed. */
  function FailedItems(items: map<Id, QueueItem>, i: Id, error: string, now: int): map<Id, QueueItem> {
    if i in items && items[i].state == Claimed
    then items[i := items[i].(state := Failed, completedAt := Some(now), error := Some(error))] else items
  }

  function FailedRuns(runs: map<Id, JobRun>, run: Option<Id>, error: string, now: int): map<Id, JobRun> {
    if run.Some? && run.value in runs && runs[run.value].status == Running
    then runs[run.value := runs[run.value].(status := RunFailed, finishedAt := Some(now), error := Some(error))] else runs
  }

  lemma GiveUpWrites(w: World, d: Id, now: int)
    requires d in w.deliveries && w.deliveries[d].phase.Writing? && w.deliveries[d].phase.ending.GiveUp?
    ensures
      var (job, w') := (w.deliveries[d], Step(w, Work(d, Write(now))));
      && w'.db.jobs == w.db.jobs && w'.deliveries == w.deliveries - {d}
      && w'.db.items == FailedItems(w.db.items, job.item, job.phase.ending.reason, now)
      && w'.db.runs == FailedRuns(w.db.runs, job.phase.run, job.phase.ending.reason, now)
  {
  }

  /** An unknown executor is a failure for good. */
  lemma UnknownExecutor(w: World, w2: World, d: Id, now: int)
    requires d in w.deliveries && w.deliveries[d].phase.Resolving?
    requires StillAt(Step(w, Work(d, Resolve(false))), w2, d)
    ensures
      var (i, w3) := (w.deliveries[d].item, Step(w2, Work(d, Write(now))));
      && w3.db.jobs == w2.db.jobs && w3.db.items == FailedItems(w2.db.items, i, "unknown executor", now)
      && w3.db.runs == FailedRuns(w2.db.runs, w2.deliveries[d].phase.run, "unknown executor", now)
  {
    Resolved(w, d, false);
    GiveUpWrites(w2, d, now);
  }

  /** An item still claimed is done, without an error; a run still running succeeds, with the output. */
  lemma Finishing(w: World, w2: World, d: Id, output: Option<string>, delay: nat, at: int, now: int)
    requires d in w.deliveries && w.deliveries[d].phase.Executing?
    requires StillAt(Step(w, Work(d, Finish(Good(output), delay, at))), w2, d)
    ensures
      var (i, run, w3) := (w.deliveries[d].item, w.deliveries[d].phase.run, Step(w2, Work(d, Write(now))));
      && w3.db.jobs == w2.db.jobs && w3.deliveries == w2.deliveries - {d}
      && w3.db.items == (
           if i in w2.db.items && w2.db.items[i].state == Claimed
           then w2.db.items[i := w2.db.items[i].(state := Done, completedAt := Some(now), error := None)]
           else w2.db.items)
      && w3.db.runs == (
           if run.Some? && run.value in w2.db.runs && w2.db.runs[run.value].status == Running
           then w2.db.runs[run.value :=
                  w2.db.runs[run.value].(status := RunStatus.Success, finishedAt := Some(now), outputRef := output)]
           else w2.db.runs)
  {
    var w1 := Step(w, Work(d, Finish(Good(output), delay, at)));
    assert w1.deliveries[d].phase == Writing(w.deliveries[d].phase.run, Succeed(output));
  }

  // ---------------------------------------------------------------- operators

  /** Cancelling an open item fails it, and cancels the open run that a `job_run:` reference names. */
  lemma CancellingItem(w: World, i: Id, niche: Option<Id>, now: int)
    ensures
      var w' := Step(w, CancelItem(i, niche, now));
      if i in w.db.items && w.db.items[i].niche == niche
         && (w.db.items[i].state == Queued || w.db.items[i].state == Claimed)
      then
        var row := w.db.items[i];
        && w'.db.jobs == w.db.jobs
        && w'.db.items == w.db.items[i := row.(state := Failed, completedAt := Some(now),
                                               error := Some("cancelled by operator"))]
        && w'.db.runs == (
             if row.payload.JobRunRef? && row.payload.run in w.db.runs
                && (w.db.runs[row.payload.run].status == Pending || w.db.runs[row.payload.run].status == Running)
             then w.db.runs[row.payload.run :=
                    w.db.runs[row.payload.run].(status := Cancelled, finishedAt := Some(now))]
             else w.db.runs)
      else w' == w
  {
  }

  lemma CancellingRun(w: World, r: Id, niche: Option<Id>, now: int)
    ensures
      var w' := Step(w, CancelRun(r, niche, now));
      if r in w.db.runs && w.db.runs[r].niche == niche
         && (w.db.runs[r].status == Pending || w.db.runs[r].status == Running)
      then w' == w.(db := w.db.(runs := w.db.runs[r := w.db.runs[r].(status := Cancelled, finishedAt := Some(now))]))
      else w' == w
  {
  }

  /** A failed item is queued for now, without its completion time and error, and keeps its attempts. */
  lemma RetryingItem(w: World, i: Id, niche: Option<Id>, now: int)
    ensures
      var w' := Step(w, RetryItem(i, niche, now));
      if i in w.db.items && w.db.items[i].niche == niche && w.db.items[i].state == Failed
      then w'.db == w.db.(items :=
             w.db.items[i := w.db.items[i].(state := Queued, runAt := now, completedAt := None, error := None)])
      else w' == w
  {
  }

  /** An enabled job of the niche gets a pending run and a queued item naming it, and is stamped. */
  lemma EnqueueingJob(w: World, j: Id, niche: Option<Id>, r: Id, i: Id, override: Option<string>, cap: int, now: int)
    requires r !in w.db.runs && i !in w.db.items
    ensures
      var w' := Step(w, EnqueueJob(j, niche, r, i, override, cap, now));
      if j in w.db.jobs && w.db.jobs[j].niche == niche && w.db.jobs[j].enabled then
        && w'.db.jobs == w.db.jobs[j := w.db.jobs[j].(lastRunAt := Some(now))]
        && w'.db.runs == w.db.runs[r := JobRun(niche, j, now, Pending, 0, None, None, None, None)]
        && w'.db.items == w.db.items[i :=
             QueueItem(niche, w.db.jobs[j].queue,
                       if override.Some? then OverrideRef(r, j, override.value) else JobRunRef(r),
                       Queued, 0, cap, now, None, None)]
      else w' == w
  {
  }

  /** Retrying a failed or cancelled run leaves its row and does for its job what enqueueing does. */
  lemma RetryingRun(w: World, r: Id, niche: Option<Id>, newRun: Id, newItem: Id, cap: int, now: int)
    ensures
      var w' := Step(w, RetryRun(r, niche, newRun, newItem, cap, now));
      if r in w.db.runs && w.db.runs[r].niche == niche
         && (w.db.runs[r].status == RunFailed || w.db.runs[r].status == Cancelled)
      then w' == Step(w, EnqueueJob(w.db.runs[r].job, niche, newRun, newItem, None, cap, now))
      else w' == w
  {
  }

  /** New work is queued with the given cap and time, unless an open item is the same work. */
  lemma Enqueueing(w: World, i: Id, niche: Option<Id>, queue: string, payload: PayloadRef, cap: int, now: int)
    requires i !in w.db.items
    ensures
      var w' := Step(w, Enqueue(i, niche, queue, payload, cap, now));
      if exists j :: j in w.db.items && w.db.items[j].niche == niche && w.db.items[j].queue == queue
                     && w.db.items[j].payload == payload
                     && (w.db.items[j].state == Queued || w.db.items[j].state == Claimed)
      then w' == w
      else w'.db == w.db.(items := w.db.items[i := QueueItem(niche, queue, payload, Queued, 0, cap, now, None, None)])
  {
    assert HasOpenItem(w.db, niche, queue, payload) <==>
           exists j :: j in w.db.items && w.db.items[j].niche == niche && w.db.items[j].queue == queue
                       && w.db.items[j].payload == payload
                       && (w.db.items[j].state == Queued || w.db.items[j].state == Claimed) by
    {
      if j :| j in w.db.items && w.db.items[j].niche == niche && w.db.items[j].queue == queue
              && w.db.items[j].payload == payload
              && (w.db.items[j].state == Queued || w.db.items[j].state == Claimed)
      {
        assert SameWork(w.db.items[j], niche, queue, payload);
      }
    }
  }

  /** What operators are answered: not found outside the niche, invalid in a status that the operation does not take. */
  lemma AnswersOnRows(db: Db, id: Id, niche: Option<Id>, now: int)
    ensures
      CancelRunDb(db, id, niche, now).1 ==
      if id !in db.runs || db.runs[id].niche != niche then NotFound
      else if db.runs[id].status == Pending || db.runs[id].status == Running then Ok else Invalid
    ensures
      CancelItemDb(db, id, niche, now).1 ==
      if id !in db.items || db.items[id].niche != niche then NotFound
      else if db.items[id].state == Queued || db.items[id].state == Claimed then Ok else Invalid
    ensures
      RetryItemDb(db, id, niche, now).1 ==
      if id !in db.items || db.items[id].niche != niche then NotFound
      else if db.items[id].state == Failed then Ok else Invalid
  {
  }

  lemma AnswersOnJobs(db: Db, id: Id, niche: Option<Id>, r: Id, i: Id, override: Option<string>, cap: int, now: int)
    ensures
      var here := id in db.jobs && db.jobs[id].niche == niche;
      && AdvanceJobDb(db, id, niche, now).1 == (if here then Ok else NotFound)
      && EnqueueJobDb(db, id, niche, r, i, override, cap, now, now).1 ==
         if !here then NotFound else if db.jobs[id].enabled then Ok else Invalid
    ensures
      RetryRunDb(db, id, niche, r, i, cap, now).1 ==
      if id !in db.runs || db.runs[id].niche != niche then NotFound
      else if db.runs[id].status != RunFailed && db.runs[id].status != Cancelled then Invalid
      else EnqueueJobDb(db, db.runs[id].job, niche, r, i, None, cap, now, now).1
  {
  }

  /** The 29 characters that count as white space when a queue's name or a reference is stripped. */
  lemma SpacesAre(c: char)
    ensures IsSpace(c) <==>
            c as int in {9, 10, 11, 12, 13, 28, 29, 30, 31, 32, 133, 160, 5760, 8192, 8193, 8194, 8195, 8196, 8197, 8198,
                         8199, 8200, 8201, 8202, 8232, 8233, 8239, 8287, 12288}
  {
  }

  lemma BlankMeans(s: string)
    ensures Blank(s) <==> forall c :: c in s ==> IsSpace(c)
  {
    if forall c :: c in s ==> IsSpace(c) {
      forall k | 0 <= k < |s| ensures IsSpace(s[k]) { assert s[k] in s; }
    }
  }

  // ---------------------------------------------------------------- the admin service

  /** The second writer's four steps, each under its own guard. */
  lemma AdminSteps(w: World, i: Id, error: string, bound: int, now: int)
    requires i in w.db.items
    ensures
      var (row, items) := (w.db.items[i], w.db.items);
      && Step(w, AdminClaim(i)).db.items ==
           (if row.state == Queued then items[i := row.(state := Claimed, attempts := row.attempts + 1)] else items)
      && Step(w, AdminComplete(i, now)).db.items ==
           (if row.state == Claimed then items[i := row.(state := Done, completedAt := Some(now), error := None)] else items)
      && Step(w, AdminFail(i, error, now)).db.items == (
           if row.state == Claimed
           then items[i := row.(state := Failed, completedAt := Some(now),
                                error := Some(if |error| <= 500 then error else error[..500]))]
           else items)
      && Step(w, AdminRetry(i, bound, now)).db.items == (
           if row.state == Failed && row.attempts < bound
           then items[i := row.(state := Queued, runAt := now, completedAt := None, error := None)] else items)
  {
  }

  lemma AdminLeavesRest(w: World, i: Id, error: string, bound: int, now: int, e: Event)
    requires || e == AdminClaim(i) || e == AdminComplete(i, now) || e == AdminFail(i, error, now)
             || e == AdminRetry(i, bound, now)
    ensures Step(w, e).db.jobs == w.db.jobs && Step(w, e).db.runs == w.db.runs
    ensures i !in w.db.items ==> Step(w, e) == w
  {
  }
}
