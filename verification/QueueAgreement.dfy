/**
 When an item and the run it was created with end alike: exactly, for every run of the protocol, and what can keep
 them from it while an item has one live delivery at most.
 */
module QueueAgreement {
  import opened Prelude
  import opened QueueLedger
  import opened QueueProtocol
  import opened QueueSafety
  import opened QueueLifecycle
  import opened QueueOneWorker

  // ---------------------------------------------------------------- ended alike

  predicate Alike(state: QueueState, status: RunStatus) {
    (state == Done && status == Success) || (state == Failed && (status == RunFailed || status == Cancelled))
  }

  predicate EndedAlike(db: Db, i: Id, r: Id) {
    i in db.items && r in db.runs && Alike(db.items[i].state, db.runs[r].status)
  }

  /** The item names the existing run, outright or in an override, and no other item names it. */
  ghost predicate Pair(db: Db, i: Id, r: Id) {
    Exclusive(db, i, r) && r in db.runs
  }

  /** Cancelling an item cancels the open run of a `job_run:` reference with it, but not an override's. */
  predicate CancelJoins(row: QueueItem, status: RunStatus) {
    if row.payload.JobRunRef? then status != Success else status == RunFailed || status == Cancelled
  }

  /** The step puts a failed item back into the queue. */
  predicate Retries(w: World, e: Event, i: Id) {
    match e
    case RetryItem(j, niche, _) =>
      j == i && i in w.db.items && w.db.items[i].niche == niche && w.db.items[i].state == Failed
    case AdminRetry(j, bound, _) =>
      j == i && i in w.db.items && w.db.items[i].state == Failed && w.db.items[i].attempts < bound
    case _ => false
  }

  /** What the write that ends an execution has to find to leave item and run ended alike. */
  predicate WriteJoins(ending: Ending, state: QueueState, status: RunStatus) {
    match ending
    case Succeed(_) =>
      || (state == Claimed && (status == Running || status == Success))
      || (state == Done && status == Running)
    case Requeue(_, _) => false
    case GiveUp(_) =>
      || (state == Claimed && (status == Running || status == RunFailed || status == Cancelled))
      || (state == Failed && status == Running)
  }

  /** What a step has to find, item by item and run by run, to leave the two ended alike when they were not. */
  predicate Joins(w: World, e: Event, i: Id, r: Id) {
    && i in w.db.items && r in w.db.runs
    && var (row, run) := (w.db.items[i], w.db.runs[r]);
       match e
       case Work(d, step) =>
         && step.Write? && d in w.deliveries && w.deliveries[d].item == i && w.deliveries[d].phase.Writing?
         && WriteJoins(w.deliveries[d].phase.ending, row.state, run.status)
       case CancelItem(j, niche, _) =>
         j == i && row.niche == niche && !TerminalItem(row.state) && CancelJoins(row, run.status)
       case CancelRun(q, niche, _) =>
         q == r && run.niche == niche && !TerminalRun(run.status) && row.state == Failed
       case AdminComplete(j, _) => j == i && row.state == Claimed && run.status == Success
       case AdminFail(j, _, _) => j == i && row.state == Claimed && (run.status == RunFailed || run.status == Cancelled)
       case _ => false
  }

  // ---------------------------------------------------------------- one step

  /** Past resolving, every delivery of the item works for the run. */
  ghost predicate WorksFor(w: World, i: Id, r: Id) {
    Pair(w.db, i, r) ==>
      forall d :: d in w.deliveries && w.deliveries[d].item == i ==>
        w.deliveries[d].phase.Resolving? || PhaseRun(w.deliveries[d].phase) == Some(r)
  }

  /** The write of a delivery of the item. */
  lemma WriteExact(w: World, d: Id, at: int, i: Id, r: Id)
    requires Pair(w.db, i, r) && WorksFor(w, i, r) && d in w.deliveries && w.deliveries[d].item == i
    ensures
      EndedAlike(Step(w, Work(d, Write(at))).db, i, r) <==>
      EndedAlike(w.db, i, r) || Joins(w, Work(d, Write(at)), i, r)
  {
    var job := w.deliveries[d];
    if job.phase.Writing? {
      assert job.phase.run == Some(r);
      assert Step(w, Work(d, Write(at))).db == EndDb(w.db, i, Some(r), job.phase.ending, at);
      EndExact(w.db, i, r, job.phase.ending, at);
    }
  }

  lemma EndExact(db: Db, i: Id, r: Id, ending: Ending, at: int)
    requires i in db.items && r in db.runs
    ensures EndedAlike(EndDb(db, i, Some(r), ending, at), i, r) <==>
            EndedAlike(db, i, r) || WriteJoins(ending, db.items[i].state, db.runs[r].status)
  {
  }

  /** The other steps of a delivery end neither. */
  lemma OtherWorkExact(w: World, d: Id, step: WorkerStep, i: Id, r: Id)
    requires !step.Write? && i in w.db.items && r in w.db.runs
    ensures EndedAlike(Step(w, Work(d, step)).db, i, r) <==> EndedAlike(w.db, i, r)
  {
  }

  lemma WorkExact(w: World, d: Id, step: WorkerStep, i: Id, r: Id)
    requires WellFormed(w) && Pair(w.db, i, r) && WorksFor(w, i, r)
    ensures
      EndedAlike(Step(w, Work(d, step)).db, i, r) <==> EndedAlike(w.db, i, r) || Joins(w, Work(d, step), i, r)
  {
    if !step.Write? {
      OtherWorkExact(w, d, step, i, r);
    } else if d in w.deliveries {
      if w.deliveries[d].item == i { WriteExact(w, d, step.at, i, r); } else { ElsewhereSparesPair(w, d, step, i, r); }
    }
  }

  lemma CancelExact(w: World, e: Event, i: Id, r: Id)
    requires e.CancelItem? || e.CancelRun?
    requires Pair(w.db, i, r)
    ensures EndedAlike(Step(w, e).db, i, r) <==> EndedAlike(w.db, i, r) || Joins(w, e, i, r)
  {
  }

  lemma AdminExact(w: World, e: Event, i: Id, r: Id)
    requires e.AdminClaim? || e.AdminComplete? || e.AdminFail?
    requires i in w.db.items && r in w.db.runs
    ensures EndedAlike(Step(w, e).db, i, r) <==> EndedAlike(w.db, i, r) || Joins(w, e, i, r)
  {
  }

  lemma RetryExact(w: World, e: Event, i: Id, r: Id)
    requires e.RetryItem? || e.AdminRetry?
    requires i in w.db.items && r in w.db.runs
    ensures EndedAlike(Step(w, e).db, i, r) <==> EndedAlike(w.db, i, r) && !Retries(w, e, i)
  {
  }

  /** After a step an item and its run are ended alike exactly if they were and it is no retry, or the step joins them. */
  lemma StepExact(w: World, e: Event, i: Id, r: Id)
    requires WellFormed(w) && Pair(w.db, i, r) && WorksFor(w, i, r)
    ensures EndedAlike(Step(w, e).db, i, r) <==> (EndedAlike(w.db, i, r) && !Retries(w, e, i)) || Joins(w, e, i, r)
  {
    match e
    case Work(d, step) => WorkExact(w, d, step, i, r);
    case CancelItem(_, _, _) => CancelExact(w, e, i, r);
    case CancelRun(_, _, _) => CancelExact(w, e, i, r);
    case RetryItem(_, _, _) => RetryExact(w, e, i, r);
    case AdminRetry(_, _, _) => RetryExact(w, e, i, r);
    case AdminClaim(_) => AdminExact(w, e, i, r);
    case AdminComplete(_, _) => AdminExact(w, e, i, r);
    case AdminFail(_, _, _) => AdminExact(w, e, i, r);
    case _ => NewWorkSparesPair(w, e, i, r);
  }

  // ---------------------------------------------------------------- every run

  /** A pair was a pair before the step, unless the step created both. */
  lemma PairBefore(w: World, e: Event, i: Id, r: Id)
    requires RunsOwned(w.db) && Pair(Step(w, e).db, i, r)
    ensures if i in w.db.items then Pair(w.db, i, r) else r !in w.db.runs
  {
    ExclusiveBefore(w, e, i, r);
    StepPersists(w, e);
  }

  lemma WorkKeepsWorksFor(w: World, d: Id, step: WorkerStep, i: Id, r: Id)
    requires Pair(w.db, i, r) && WorksFor(w, i, r) && WellFormed(w)
    ensures WorksFor(Step(w, Work(d, step)), i, r)
  {
    var w' := Step(w, Work(d, step));
    forall other | other in w'.deliveries && w'.deliveries[other].item == i
      ensures w'.deliveries[other].phase.Resolving? || PhaseRun(w'.deliveries[other].phase) == Some(r)
    {
      if other == d { OwnWorksFor(w, d, step, i, r); } else { WorkLeavesOthers(w, d, step, other); }
    }
  }

  lemma OwnWorksFor(w: World, d: Id, step: WorkerStep, i: Id, r: Id)
    requires Pair(w.db, i, r) && WorksFor(w, i, r) && WellFormed(w)
    ensures
      var ds := Step(w, Work(d, step)).deliveries;
      d in ds && ds[d].item == i ==> ds[d].phase.Resolving? || PhaseRun(ds[d].phase) == Some(r)
  {
    if d in w.deliveries { assert DeliveryOk(w.db, w.deliveries[d]); }
  }

  lemma StepKeepsWorksFor(w: World, e: Event, i: Id, r: Id)
    requires WellFormed(w) && RunsOwned(w.db) && WorksFor(w, i, r)
    ensures WorksFor(Step(w, e), i, r)
  {
    if Pair(Step(w, e).db, i, r) {
      PairBefore(w, e, i, r);
      if !e.Work? { OthersLeaveDeliveries(w, e); }
      if i !in w.db.items {
        NoDeliveryBefore(w, i);
        if e.Work? { WorkBringsNoItem(w, e.delivery, e.step, i); }
      } else if e.Work? {
        WorkKeepsWorksFor(w, e.delivery, e.step, i, r);
      }
    }
  }

  lemma WorkBringsNoItem(w: World, d: Id, step: WorkerStep, i: Id)
    requires i !in w.db.items
    ensures i !in Step(w, Work(d, step)).db.items
  {
  }

  lemma {:induction false} RunKeepsWorksFor(w: World, es: seq<Event>, i: Id, r: Id)
    requires WellFormed(w) && RunsOwned(w.db) && WorksFor(w, i, r)
    ensures var w' := Run(w, es); WellFormed(w') && RunsOwned(w'.db) && WorksFor(w', i, r)
    decreases |es|
  {
    if es != [] {
      StepKeepsWorksFor(w, es[0], i, r);
      StepWellFormed(w, es[0]);
      StepKeepsRunsOwned(w, es[0]);
      RunKeepsWorksFor(Step(w, es[0]), es[1..], i, r);
    }
  }

  /** Some step of the history joined item and run, and no later one retried the item. */
  ghost predicate Joined(w: World, es: seq<Event>, i: Id, r: Id) {
    es != [] &&
    var (before, e) := (es[..|es| - 1], es[|es| - 1]);
    Joins(Run(w, before), e, i, r) || (Joined(w, before, i, r) && !Retries(Run(w, before), e, i))
  }

  lemma RunLast(w: World, es: seq<Event>)
    requires es != []
    ensures Run(w, es) == Step(Run(w, es[..|es| - 1]), es[|es| - 1])
  {
    var (before, e) := (es[..|es| - 1], es[|es| - 1]);
    assert es == before + [e];
    RunAppend(w, before, [e]);
    assert [e][1..] == [] && Run(Step(Run(w, before), e), []) == Step(Run(w, before), e);
  }

  lemma {:induction false} JoinedExists(w: World, es: seq<Event>, i: Id, r: Id)
    requires Joined(w, es, i, r)
    ensures i in Run(w, es).db.items
    decreases |es|
  {
    var before := es[..|es| - 1];
    RunLast(w, es);
    StepPersists(Run(w, before), es[|es| - 1]);
    if !Joins(Run(w, before), es[|es| - 1], i, r) { JoinedExists(w, before, i, r); }
  }

  /**
   In every run, whatever overlaps, crashes, is cancelled or retried: an item and its run have ended alike exactly if
   some step joined them and no later step retried the item.
   */
  lemma {:induction false} AgreementExact(jobs: map<Id, ScheduledJob>, es: seq<Event>, i: Id, r: Id)
    requires Pair(Run(Initial(jobs), es).db, i, r)
    ensures EndedAlike(Run(Initial(jobs), es).db, i, r) <==> Joined(Initial(jobs), es, i, r)
    decreases |es|
  {
    if es != [] {
      var (before, e) := (es[..|es| - 1], es[|es| - 1]);
      var w := Run(Initial(jobs), before);
      RunLast(Initial(jobs), es);
      RunKeepsWorksFor(Initial(jobs), before, i, r);
      PairBefore(w, e, i, r);
      if i in w.db.items {
        AgreementExact(jobs, before, i, r);
        StepExact(w, e, i, r);
      } else {
        AppearsQueued(w, e, i);
        if Joined(Initial(jobs), before, i, r) { JoinedExists(Initial(jobs), before, i, r); }
      }
    }
  }

  // ---------------------------------------------------------------- with one live delivery

  predicate Waits(ds: Deliveries, d: Id, i: Id) {
    d in ds && ds[d].item == i && MayStart(ds[d])
  }

  /**
   What can drive them apart: a claimant that stops before it starts the run or does not know its executor, the
   cancelling of the run alone or of an override item, and the retry of the failed item.
   */
  predicate Breaks(w: World, e: Event, i: Id, r: Id) {
    match e
    case Work(d, step) =>
      && Waits(w.deliveries, d, i) && i in w.db.items && w.db.items[i].state == Claimed
      && (step.Crash? || (step == Resolve(false) && w.deliveries[d].phase.Resolving?))
    case CancelRun(q, niche, _) =>
      q == r && r in w.db.runs && w.db.runs[r].niche == niche && !TerminalRun(w.db.runs[r].status)
    case CancelItem(j, niche, _) =>
      && j == i && i in w.db.items && w.db.items[i].niche == niche && !TerminalItem(w.db.items[i].state)
      && !w.db.items[i].payload.JobRunRef?
    case _ => Retries(w, e, i)
  }

  predicate Unbroken(w: World, es: seq<Event>, i: Id, r: Id)
    decreases |es|
  {
    es == [] || (!Breaks(w, es[0], i, r) && Unbroken(Step(w, es[0]), es[1..], i, r))
  }

  /** Item and run move together; a claimed item whose run is pending has the one delivery that will start it. */
  ghost predicate InTune(w: World, i: Id, r: Id) {
    Pair(w.db, i, r) ==> Tuned(w.deliveries, w.db.items[i].state, w.db.runs[r].status, i)
  }

  ghost predicate Tuned(ds: Deliveries, state: QueueState, status: RunStatus, i: Id) {
    match state
    case Queued => status == Pending && Idle(ds, i)
    case Claimed => status == Running || (status == Pending && exists d :: Waits(ds, d, i))
    case Done => status == Success
    case Failed => status == RunFailed || status == Cancelled
  }

  lemma OthersKeepTune(w: World, e: Event, i: Id, r: Id)
    requires !e.Work? && Disciplined(w, e) && !Breaks(w, e, i, r) && w.tally.Keys == w.db.items.Keys
    requires Pair(w.db, i, r) && InTune(w, i, r)
    ensures InTune(Step(w, e), i, r)
  {
    OthersLeaveDeliveries(w, e);
    OthersMovePair(w, e, i, r);
  }

  lemma OthersMovePair(w: World, e: Event, i: Id, r: Id)
    requires !e.Work? && Disciplined(w, e) && !Breaks(w, e, i, r) && Pair(w.db, i, r)
    ensures
      var db' := Step(w, e).db;
      && i in db'.items && r in db'.runs
      && var (row, row') := (w.db.items[i], db'.items[i]);
         var (status, status') := (w.db.runs[r].status, db'.runs[r].status);
         || (row'.state == row.state && status' == status)
         || (row'.state == Failed && !TerminalItem(row.state) && (TerminalRun(status) || status' == Cancelled))
  {
    if e.Enqueue? || e.EnqueueJob? || e.RetryRun? { NewWorkSparesPair(w, e, i, r); }
  }

  /** A step of the item's own delivery, when it is the only one. */
  lemma OwnStepKeepsTune(w: World, d: Id, step: WorkerStep, i: Id, r: Id)
    requires WellFormed(w) && Pair(w.db, i, r) && InTune(w, i, r) && WorksFor(w, i, r)
    requires !step.Deliver? && d in w.deliveries && w.deliveries[d].item == i && !Breaks(w, Work(d, step), i, r)
    requires forall other :: other in w.deliveries && w.deliveries[other].item == i ==> other == d
    ensures InTune(Step(w, Work(d, step)), i, r)
  {
    if step.Write? { OwnWriteKeepsTune(w, d, step.at, i, r); } else { OwnMoveKeepsTune(w, d, step, i, r); }
  }

  lemma OwnWriteKeepsTune(w: World, d: Id, at: int, i: Id, r: Id)
    requires Pair(w.db, i, r) && InTune(w, i, r) && WorksFor(w, i, r)
    requires d in w.deliveries && w.deliveries[d].item == i
    requires forall other :: other in w.deliveries && w.deliveries[other].item == i ==> other == d
    ensures InTune(Step(w, Work(d, Write(at))), i, r)
  {
    var w' := Step(w, Work(d, Write(at)));
    if w.deliveries[d].phase.Writing? {
      assert Idle(w'.deliveries, i);
      assert w'.db == EndDb(w.db, i, Some(r), w.deliveries[d].phase.ending, at);
      assert forall other :: !Waits(w.deliveries, other, i);
    }
  }

  lemma OwnMoveKeepsTune(w: World, d: Id, step: WorkerStep, i: Id, r: Id)
    requires Pair(w.db, i, r) && InTune(w, i, r) && WorksFor(w, i, r)
    requires !step.Deliver? && !step.Write? && d in w.deliveries && DeliveryOk(w.db, w.deliveries[d])
    requires d in w.deliveries && w.deliveries[d].item == i && !Breaks(w, Work(d, step), i, r)
    requires forall other :: other in w.deliveries && w.deliveries[other].item == i ==> other == d
    ensures InTune(Step(w, Work(d, step)), i, r)
  {
    var w' := Step(w, Work(d, step));
    if Waits(w.deliveries, d, i) && w.db.items[i].state == Claimed && w.db.runs[r].status == Pending {
      assert Waits(w'.deliveries, d, i) || w'.db.runs[r].status == Running;
    }
  }

  lemma ElsewhereKeepsTune(w: World, d: Id, step: WorkerStep, i: Id, r: Id)
    requires WellFormed(w) && Pair(w.db, i, r) && InTune(w, i, r)
    requires !step.Deliver? && d in w.deliveries && w.deliveries[d].item != i
    ensures InTune(Step(w, Work(d, step)), i, r)
  {
    var w' := Step(w, Work(d, step));
    ElsewhereSparesPair(w, d, step, i, r);
    if other :| Waits(w.deliveries, other, i) {
      WorkLeavesOthers(w, d, step, other);
      assert Waits(w'.deliveries, other, i);
    }
    forall other | other in w'.deliveries
      ensures other in w.deliveries && w'.deliveries[other].item == w.deliveries[other].item
    {
      if other != d { WorkLeavesOthers(w, d, step, other); }
    }
  }

  lemma DeliverKeepsTune(w: World, d: Id, item: Id, i: Id, r: Id)
    requires WellFormed(w) && Pair(w.db, i, r) && InTune(w, i, r)
    requires Disciplined(w, Work(d, Deliver(item)))
    ensures InTune(Step(w, Work(d, Deliver(item))), i, r)
  {
    var w' := Step(w, Work(d, Deliver(item)));
    if w' != w {
      var job := DeliverArrives(w, d, item);
      if other :| Waits(w.deliveries, other, i) { assert Waits(w'.deliveries, other, i); }
      if item == i && w.db.items[i].state == Queued { assert Waits(w'.deliveries, d, i); }
    }
  }

  lemma StepKeepsTune(w: World, e: Event, i: Id, r: Id)
    requires WellFormed(w) && RunsOwned(w.db) && Alone(w, i) && WorksFor(w, i, r) && InTune(w, i, r)
    requires Disciplined(w, e) && !Breaks(w, e, i, r)
    ensures InTune(Step(w, e), i, r)
  {
    if Pair(Step(w, e).db, i, r) {
      PairBefore(w, e, i, r);
      if i !in w.db.items {
        NewRunHasItem(w, e, r);
        AppearsQueued(w, e, i);
        OthersLeaveDeliveries(w, e);
        NoDeliveryBefore(w, i);
      } else if !e.Work? {
        OthersKeepTune(w, e, i, r);
      } else if e.step.Deliver? {
        DeliverKeepsTune(w, e.delivery, e.step.item, i, r);
      } else if e.delivery in w.deliveries {
        if w.deliveries[e.delivery].item == i {
          OwnStepKeepsTune(w, e.delivery, e.step, i, r);
        } else {
          ElsewhereKeepsTune(w, e.delivery, e.step, i, r);
        }
      }
    }
  }

  lemma {:induction false} RunKeepsTune(w: World, es: seq<Event>, i: Id, r: Id)
    requires WellFormed(w) && RunsOwned(w.db) && Alone(w, i) && WithinAllowance(w.db, w.tally, i)
    requires WorksFor(w, i, r) && InTune(w, i, r) && DisciplinedRun(w, es) && Unbroken(w, es, i, r)
    ensures InTune(Run(w, es), i, r)
    decreases |es|
  {
    if es != [] {
      StepKeepsAlone(w, es[0], i);
      StepKeepsTune(w, es[0], i, r);
      StepKeepsWorksFor(w, es[0], i, r);
      StepWellFormed(w, es[0]);
      StepKeepsRunsOwned(w, es[0]);
      RunKeepsTune(Step(w, es[0]), es[1..], i, r);
    }
  }

  /**
   With one live delivery per item, and none of the five things that can drive them apart: the item has ended exactly
   if its run has, and then alike; while the item is queued the run is pending.
   */
  lemma OneWorkerAgreement(jobs: map<Id, ScheduledJob>, es: seq<Event>, i: Id, r: Id)
    requires DisciplinedRun(Initial(jobs), es) && Unbroken(Initial(jobs), es, i, r)
    requires Pair(Run(Initial(jobs), es).db, i, r)
    ensures
      var db := Run(Initial(jobs), es).db;
      && (TerminalItem(db.items[i].state) <==> TerminalRun(db.runs[r].status))
      && (TerminalItem(db.items[i].state) ==> EndedAlike(db, i, r))
      && (db.items[i].state == Queued ==> db.runs[r].status == Pending)
  {
    RunKeepsTune(Initial(jobs), es, i, r);
  }
}
