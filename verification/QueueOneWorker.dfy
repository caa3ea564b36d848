/**
 What holds when an item has at most one live delivery: a redelivery comes only after the previous
 worker has stopped, wherever it crashed. Operators, new work and the admin service's retry still act
 at any time; the admin service does not claim, complete or fail items itself.
 */
module QueueOneWorker {
  import opened Prelude
  import opened QueueLedger
  import opened QueueProtocol
  import opened QueueSafety
  import opened QueueLifecycle

  predicate Idle(ds: Deliveries, i: Id) {
    forall d :: d in ds ==> ds[d].item != i
  }

  predicate Disciplined(w: World, e: Event) {
    match e
    case Work(d, step) => step.Deliver? ==> Idle(w.deliveries, step.item)
    case AdminClaim(_) => false
    case AdminComplete(_, _) => false
    case AdminFail(_, _, _) => false
    case _ => true
  }

  predicate DisciplinedRun(w: World, es: seq<Event>)
    decreases |es|
  {
    es == [] || (Disciplined(w, es[0]) && DisciplinedRun(Step(w, es[0]), es[1..]))
  }

  // ---------------------------------------------------------------- one worker and its attempt

  function Allowance(row: QueueItem, t: Tally): nat {
    Max(1, row.maxAttempts) + t.retries
  }

  /** The only live delivery of a claimed item saw its present attempt. */
  ghost predicate Alone(w: World, i: Id) {
    && (forall d, d' :: d in w.deliveries && d' in w.deliveries && w.deliveries[d].item == i && w.deliveries[d'].item == i
          ==> d == d')
    && (i in w.db.items && w.db.items[i].state == Claimed ==>
          forall d :: d in w.deliveries && w.deliveries[d].item == i ==> w.deliveries[d].seen == w.db.items[i].attempts)
  }

  ghost predicate WithinAllowance(db: Db, tally: map<Id, Tally>, i: Id) {
    i in db.items && i in tally ==>
      && db.items[i].attempts <= Allowance(db.items[i], tally[i])
      && (db.items[i].state == Queued ==> db.items[i].attempts < Allowance(db.items[i], tally[i]))
  }

  lemma OthersKeepRow(w: World, e: Event, i: Id)
    requires !e.Work? && Disciplined(w, e) && i in w.db.items
    ensures i in Step(w, e).db.items
    ensures Step(w, e).db.items[i].attempts == w.db.items[i].attempts
    ensures Step(w, e).db.items[i].state == Claimed ==> w.db.items[i].state == Claimed
  {
    if e.Enqueue? || e.EnqueueJob? || e.RetryRun? { NewWorkPersists(w, e); }
  }

  lemma OthersKeepAllowance(w: World, e: Event, i: Id)
    requires !e.Work? && Disciplined(w, e) && w.tally.Keys == w.db.items.Keys
    requires WithinAllowance(w.db, w.tally, i)
    ensures WithinAllowance(Step(w, e).db, Step(w, e).tally, i)
  {
    if e.Enqueue? || e.EnqueueJob? || e.RetryRun? { NewWorkPersists(w, e); }
  }

  lemma WorkKeepsAlone(w: World, d: Id, step: WorkerStep, i: Id)
    requires WellFormed(w) && Alone(w, i) && Disciplined(w, Work(d, step))
    ensures Alone(Step(w, Work(d, step)), i)
  {
    if step.Deliver? { DeliverKeepsAlone(w, d, step.item, i); } else { MoveKeepsAlone(w, d, step, i); }
  }

  lemma DeliverKeepsAlone(w: World, d: Id, item: Id, i: Id)
    requires Alone(w, i) && Idle(w.deliveries, item)
    ensures Alone(Step(w, Work(d, Deliver(item))), i)
  {
  }

  lemma MoveKeepsAlone(w: World, d: Id, step: WorkerStep, i: Id)
    requires !step.Deliver? && Alone(w, i)
    ensures Alone(Step(w, Work(d, step)), i)
  {
    var w' := Step(w, Work(d, step));
    forall other | other in w'.deliveries
      ensures other in w.deliveries && w.deliveries[other].item == w'.deliveries[other].item
      ensures w.deliveries[other].seen == w'.deliveries[other].seen
    {
    }
  }

  lemma WorkKeepsAllowance(w: World, d: Id, step: WorkerStep, i: Id)
    requires WellFormed(w) && Alone(w, i) && WithinAllowance(w.db, w.tally, i)
    ensures
      var w' := Step(w, Work(d, step));
      WithinAllowance(w'.db, w'.tally, i)
  {
    if d in w.deliveries { assert DeliveryOk(w.db, w.deliveries[d]); }
  }

  lemma StepKeepsAlone(w: World, e: Event, i: Id)
    requires WellFormed(w) && Alone(w, i) && WithinAllowance(w.db, w.tally, i) && Disciplined(w, e)
    ensures Alone(Step(w, e), i) && WithinAllowance(Step(w, e).db, Step(w, e).tally, i)
  {
    if e.Work? {
      WorkKeepsAlone(w, e.delivery, e.step, i);
      WorkKeepsAllowance(w, e.delivery, e.step, i);
    } else {
      OthersLeaveDeliveries(w, e);
      if i in w.db.items { OthersKeepRow(w, e, i); } else { NoDeliveryBefore(w, i); }
      OthersKeepAllowance(w, e, i);
    }
  }

  // ---------------------------------------------------------------- the worker and the run

  /**
   For an item whose `job_run:` reference nobody else shares: a running run has a claimed item, a
   successful run a done one, and the worker about to start a pending run still holds the claim.
   */
  ghost predicate InStep(w: World, i: Id, r: Id) {
    Exclusive(w.db, i, r) && w.db.items[i].payload.JobRunRef? && r in w.db.runs ==>
      && (w.db.runs[r].status == Running ==> w.db.items[i].state == Claimed)
      && (w.db.runs[r].status == Success ==> w.db.items[i].state == Done)
      && (forall d :: d in w.deliveries && w.deliveries[d].item == i ==>
            && (w.deliveries[d].phase.Resolving? || PhaseRun(w.deliveries[d].phase) == Some(r))
            && (MayStart(w.deliveries[d]) && w.db.runs[r].status == Pending ==> w.db.items[i].state == Claimed))
  }

  lemma OthersKeepInStep(w: World, e: Event, i: Id, r: Id)
    requires !e.Work? && Disciplined(w, e) && WellFormed(w)
    requires Exclusive(w.db, i, r) && w.db.items[i].payload.JobRunRef? && r in w.db.runs && InStep(w, i, r)
    ensures InStep(Step(w, e), i, r)
  {
    OthersLeaveDeliveries(w, e);
    OthersKeepPair(w, e, i, r);
  }

  /** What others may do to an item and its run: cancel either, or retry the failed item. */
  lemma OthersKeepPair(w: World, e: Event, i: Id, r: Id)
    requires !e.Work? && Disciplined(w, e)
    requires Exclusive(w.db, i, r) && w.db.items[i].payload.JobRunRef? && r in w.db.runs
    ensures i in Step(w, e).db.items && r in Step(w, e).db.runs
    ensures
      var (state, state') := (w.db.items[i].state, Step(w, e).db.items[i].state);
      var (status, status') := (w.db.runs[r].status, Step(w, e).db.runs[r].status);
      || (state' == state && status' == status)
      || (state' == state && status' == Cancelled)
      || (state' == Failed && !TerminalItem(state) && status' == if TerminalRun(status) then status else Cancelled)
      || (state == Failed && state' == Queued && status' == status)
  {
    if e.Enqueue? || e.EnqueueJob? || e.RetryRun? { NewWorkSparesPair(w, e, i, r); }
  }

  lemma NewWorkSparesPair(w: World, e: Event, i: Id, r: Id)
    requires e.Enqueue? || e.EnqueueJob? || e.RetryRun?
    requires i in w.db.items && r in w.db.runs
    ensures i in Step(w, e).db.items && Step(w, e).db.items[i] == w.db.items[i]
    ensures r in Step(w, e).db.runs && Step(w, e).db.runs[r] == w.db.runs[r]
  {
    NewWorkPersists(w, e);
  }

  lemma DeliverKeepsInStep(w: World, d: Id, item: Id, i: Id, r: Id)
    requires WellFormed(w) && Exclusive(w.db, i, r) && w.db.items[i].payload.JobRunRef? && r in w.db.runs
    requires InStep(w, i, r) && Disciplined(w, Work(d, Deliver(item)))
    ensures InStep(Step(w, Work(d, Deliver(item))), i, r)
  {
  }

  /** A delivery of another item writes neither the item nor its run. */
  lemma ElsewhereSparesPair(w: World, d: Id, step: WorkerStep, i: Id, r: Id)
    requires WellFormed(w) && Exclusive(w.db, i, r) && r in w.db.runs
    requires !step.Deliver? && d in w.deliveries && w.deliveries[d].item != i
    ensures
      var db' := Step(w, Work(d, step)).db;
      i in db'.items && db'.items[i] == w.db.items[i] && r in db'.runs && db'.runs[r] == w.db.runs[r]
  {
    assert DeliveryOk(w.db, w.deliveries[d]);
  }

  /** A delivery of another item works for another run. */
  lemma ElsewhereKeepsInStep(w: World, d: Id, step: WorkerStep, i: Id, r: Id)
    requires WellFormed(w) && Exclusive(w.db, i, r) && w.db.items[i].payload.JobRunRef? && r in w.db.runs
    requires InStep(w, i, r) && !step.Deliver? && d in w.deliveries && w.deliveries[d].item != i
    ensures InStep(Step(w, Work(d, step)), i, r)
  {
    var w' := Step(w, Work(d, step));
    ElsewhereSparesPair(w, d, step, i, r);
    forall other | other in w'.deliveries && w'.deliveries[other].item == i
      ensures other in w.deliveries && w'.deliveries[other] == w.deliveries[other]
    {
      ElsewhereMovesItsOwn(w, d, step, other, i);
    }
  }

  lemma ElsewhereMovesItsOwn(w: World, d: Id, step: WorkerStep, other: Id, i: Id)
    requires !step.Deliver? && d in w.deliveries && w.deliveries[d].item != i
    requires other in Step(w, Work(d, step)).deliveries && Step(w, Work(d, step)).deliveries[other].item == i
    ensures other in w.deliveries && Step(w, Work(d, step)).deliveries[other] == w.deliveries[other]
  {
    if other != d { WorkLeavesOthers(w, d, step, other); }
  }

  lemma OwnStepKeepsInStep(w: World, d: Id, step: WorkerStep, i: Id, r: Id)
    requires WellFormed(w) && Alone(w, i) && Exclusive(w.db, i, r) && w.db.items[i].payload.JobRunRef? && r in w.db.runs
    requires InStep(w, i, r) && !step.Deliver? && d in w.deliveries && w.deliveries[d].item == i
    ensures InStep(Step(w, Work(d, step)), i, r)
  {
    assert DeliveryOk(w.db, w.deliveries[d]);
    if step.Write? { OwnWriteKeepsInStep(w, d, step.at, i, r); } else { OwnMoveKeepsInStep(w, d, step, i, r); }
  }

  lemma OwnWriteKeepsInStep(w: World, d: Id, at: int, i: Id, r: Id)
    requires Alone(w, i) && Exclusive(w.db, i, r) && w.db.items[i].payload.JobRunRef? && r in w.db.runs
    requires InStep(w, i, r) && d in w.deliveries && w.deliveries[d].item == i
    ensures InStep(Step(w, Work(d, Write(at))), i, r)
  {
    var w' := Step(w, Work(d, Write(at)));
    if w.deliveries[d].phase.Writing? {
      assert w'.db == EndDb(w.db, i, Some(r), w.deliveries[d].phase.ending, at);
      assert Idle(w'.deliveries, i);
    }
  }

  lemma OwnMoveKeepsInStep(w: World, d: Id, step: WorkerStep, i: Id, r: Id)
    requires Alone(w, i) && Exclusive(w.db, i, r) && w.db.items[i].payload.JobRunRef? && r in w.db.runs
    requires InStep(w, i, r) && !step.Deliver? && !step.Write? && d in w.deliveries && w.deliveries[d].item == i
    requires DeliveryOk(w.db, w.deliveries[d])
    ensures InStep(Step(w, Work(d, step)), i, r)
  {
    var w' := Step(w, Work(d, step));
    assert w'.db.items == w.db.items && r in w'.db.runs;
    forall other | other in w'.deliveries && w'.deliveries[other].item == i ensures other == d {}
  }

  lemma StepKeepsInStep(w: World, e: Event, i: Id, r: Id)
    requires WellFormed(w) && RunsOwned(w.db) && Alone(w, i) && InStep(w, i, r) && Disciplined(w, e)
    ensures InStep(Step(w, e), i, r)
  {
    var w' := Step(w, e);
    if Exclusive(w'.db, i, r) && w'.db.items[i].payload.JobRunRef? && r in w'.db.runs {
      ExclusiveBefore(w, e, i, r);
      StepPersists(w, e);
      if r in w.db.runs {
        if !e.Work? {
          OthersKeepInStep(w, e, i, r);
        } else if e.step.Deliver? {
          DeliverKeepsInStep(w, e.delivery, e.step.item, i, r);
        } else if e.delivery in w.deliveries {
          if w.deliveries[e.delivery].item == i {
            OwnStepKeepsInStep(w, e.delivery, e.step, i, r);
          } else {
            ElsewhereKeepsInStep(w, e.delivery, e.step, i, r);
          }
        } else {
          assert w' == w.(deliveries := w'.deliveries) && w'.deliveries == w.deliveries;
        }
      } else {
        NewRunHasItem(w, e, r);
        OthersLeaveDeliveries(w, e);
        NoDeliveryBefore(w, i);
      }
    }
  }

  lemma {:induction false} RunKeepsInStep(w: World, es: seq<Event>, i: Id, r: Id)
    requires WellFormed(w) && RunsOwned(w.db) && Alone(w, i) && WithinAllowance(w.db, w.tally, i) && InStep(w, i, r)
    requires DisciplinedRun(w, es)
    ensures
      var w' := Run(w, es);
      w'.tally.Keys == w'.db.items.Keys && WithinAllowance(w'.db, w'.tally, i) && InStep(w', i, r)
    decreases |es|
  {
    if es != [] {
      StepKeepsAlone(w, es[0], i);
      StepKeepsInStep(w, es[0], i, r);
      StepWellFormed(w, es[0]);
      StepKeepsRunsOwned(w, es[0]);
      RunKeepsInStep(Step(w, es[0]), es[1..], i, r);
    }
  }

  /**
   With one live delivery per item, in every run: attempts stay within the cap plus the retries, and
   strictly below while queued; a running run has a claimed item and a successful run a done one.
   */
  lemma OneWorkerSafety(jobs: map<Id, ScheduledJob>, es: seq<Event>, i: Id, r: Id)
    requires DisciplinedRun(Initial(jobs), es)
    ensures
      var w := Run(Initial(jobs), es);
      && (i in w.db.items ==>
            && i in w.tally
            && w.db.items[i].attempts <= Max(1, w.db.items[i].maxAttempts) + w.tally[i].retries
            && (w.db.items[i].state == Queued ==>
                  w.db.items[i].attempts < Max(1, w.db.items[i].maxAttempts) + w.tally[i].retries))
      && (Exclusive(w.db, i, r) && w.db.items[i].payload.JobRunRef? && r in w.db.runs ==>
            && (w.db.runs[r].status == Running ==> w.db.items[i].state == Claimed)
            && (w.db.runs[r].status == Success ==> w.db.items[i].state == Done))
  {
    RunKeepsInStep(Initial(jobs), es, i, r);
  }

  // ---------------------------------------------------------------- an item settles down

  /** Potential of an item: every change of its row uses some up, and only a retry adds to it. */
  function Potential(row: QueueItem, t: Tally): int {
    2 * (Allowance(row, t) - row.attempts) + (if row.state == Claimed then 2 else if row.state == Queued then 1 else 0)
  }

  /** How many steps of a run change an item that exists. */
  function Changes(w: World, es: seq<Event>, i: Id): nat
    decreases |es|
  {
    if es == [] then 0
    else
      var w' := Step(w, es[0]);
      Changes(w', es[1..], i) + OneIf(i in w.db.items && i in w'.db.items && w'.db.items[i] != w.db.items[i])
  }

  lemma OthersUsePotential(w: World, e: Event, i: Id)
    requires !e.Work? && Disciplined(w, e) && i in w.db.items && i in w.tally
    ensures
      var w' := Step(w, e);
      && i in w'.db.items && i in w'.tally && w'.tally[i].retries >= w.tally[i].retries
      && Potential(w'.db.items[i], w'.tally[i]) + OneIf(w'.db.items[i] != w.db.items[i])
           <= Potential(w.db.items[i], w.tally[i]) + 4 * (w'.tally[i].retries - w.tally[i].retries)
  {
    if e.Enqueue? || e.EnqueueJob? || e.RetryRun? { NewWorkSparesItem(w, e, i); }
  }

  lemma WorkUsesPotential(w: World, d: Id, step: WorkerStep, i: Id)
    requires WellFormed(w) && i in w.db.items && i in w.tally
    ensures
      var w' := Step(w, Work(d, step));
      && i in w'.db.items && i in w'.tally && w'.tally[i].retries == w.tally[i].retries
      && Potential(w'.db.items[i], w'.tally[i]) + OneIf(w'.db.items[i] != w.db.items[i])
           <= Potential(w.db.items[i], w.tally[i])
  {
  }

  lemma {:induction false} RunUsesPotential(w: World, es: seq<Event>, i: Id)
    requires WellFormed(w) && Alone(w, i) && WithinAllowance(w.db, w.tally, i) && DisciplinedRun(w, es)
    requires i in w.db.items
    ensures
      var w' := Run(w, es);
      && i in w'.db.items && i in w'.tally
      && WithinAllowance(w'.db, w'.tally, i)
      && Potential(w'.db.items[i], w'.tally[i]) + Changes(w, es, i)
           <= Potential(w.db.items[i], w.tally[i]) + 4 * (w'.tally[i].retries - w.tally[i].retries)
    decreases |es|
  {
    if es != [] {
      if es[0].Work? { WorkUsesPotential(w, es[0].delivery, es[0].step, i); } else { OthersUsePotential(w, es[0], i); }
      StepKeepsAlone(w, es[0], i);
      StepWellFormed(w, es[0]);
      RunUsesPotential(Step(w, es[0]), es[1..], i);
    }
  }

  lemma {:induction false} RunSettles(w: World, es: seq<Event>, i: Id)
    requires WellFormed(w) && Alone(w, i) && DisciplinedRun(w, es) && i !in w.db.items
    ensures
      var w' := Run(w, es);
      i in w'.db.items ==>
        i in w'.tally && Changes(w, es, i) <= 2 * Max(1, w'.db.items[i].maxAttempts) + 1 + 4 * w'.tally[i].retries
    decreases |es|
  {
    if es != [] {
      var w1 := Step(w, es[0]);
      StepKeepsAlone(w, es[0], i);
      StepWellFormed(w, es[0]);
      if i in w1.db.items {
        AppearsQueued(w, es[0], i);
        RunUsesPotential(w1, es[1..], i);
        RunPersists(w1, es[1..], i);
      } else {
        RunSettles(w1, es[1..], i);
      }
    }
  }

  lemma AppearsQueued(w: World, e: Event, i: Id)
    requires w.tally.Keys == w.db.items.Keys && i !in w.db.items && i in Step(w, e).db.items
    ensures i in Step(w, e).tally && Step(w, e).tally[i] == Tally(0, 0, 0)
    ensures Step(w, e).db.items[i].state == Queued && Step(w, e).db.items[i].attempts == 0
  {
  }

  lemma {:induction false} RunPersists(w: World, es: seq<Event>, i: Id)
    requires i in w.db.items
    ensures i in Run(w, es).db.items && Run(w, es).db.items[i].maxAttempts == w.db.items[i].maxAttempts
    decreases |es|
  {
    if es != [] {
      StepPersists(w, es[0]);
      RunPersists(Step(w, es[0]), es[1..], i);
    }
  }

  /** With one live delivery per item, an item's row changes a bounded number of times in every run. */
  lemma ItemSettles(jobs: map<Id, ScheduledJob>, es: seq<Event>, i: Id)
    requires DisciplinedRun(Initial(jobs), es)
    ensures
      var w := Run(Initial(jobs), es);
      i in w.db.items ==>
        && i in w.tally
        && Changes(Initial(jobs), es, i) <= 2 * Max(1, w.db.items[i].maxAttempts) + 1 + 4 * w.tally[i].retries
  {
    RunSettles(Initial(jobs), es, i);
  }
}
