/**
 Final states, timestamps and attempt counts, under every interleaving of workers, operators, new work
 and the admin service.
 */
module QueueLifecycle {
  import opened Prelude
  import opened QueueLedger
  import opened QueueProtocol
  import opened QueueSafety

  // ---------------------------------------------------------------- final states

  lemma DoneItemStays(w: World, e: Event, i: Id)
    requires i in w.db.items && w.db.items[i].state == Done
    ensures i in Step(w, e).db.items && Step(w, e).db.items[i] == w.db.items[i]
  {
    if e.Enqueue? || e.EnqueueJob? || e.RetryRun? { NewWorkPersists(w, e); }
  }

  lemma EndedRunStays(w: World, e: Event, r: Id)
    requires r in w.db.runs && TerminalRun(w.db.runs[r].status)
    ensures r in Step(w, e).db.runs && Step(w, e).db.runs[r] == w.db.runs[r]
  {
  }

  /** A done item and a success, failed or cancelled run are never written again. */
  lemma {:induction false} FinalStatesAbsorb(w: World, es: seq<Event>)
    ensures forall i :: i in w.db.items && w.db.items[i].state == Done ==>
              i in Run(w, es).db.items && Run(w, es).db.items[i] == w.db.items[i]
    ensures forall r :: r in w.db.runs && TerminalRun(w.db.runs[r].status) ==>
              r in Run(w, es).db.runs && Run(w, es).db.runs[r] == w.db.runs[r]
    decreases |es|
  {
    if es != [] {
      var w' := Step(w, es[0]);
      forall i | i in w.db.items && w.db.items[i].state == Done
        ensures i in w'.db.items && w'.db.items[i] == w.db.items[i]
      {
        DoneItemStays(w, es[0], i);
      }
      forall r | r in w.db.runs && TerminalRun(w.db.runs[r].status)
        ensures r in w'.db.runs && w'.db.runs[r] == w.db.runs[r]
      {
        EndedRunStays(w, es[0], r);
      }
      FinalStatesAbsorb(w', es[1..]);
    }
  }

  /**
   A retry checks its run in one transaction and enqueues in another. What the check answered stays true whatever
   happens in between, so the later enqueue is what a retry then and there would write.
   */
  lemma RetryCheckLasts(w: World, es: seq<Event>, run: Id, niche: Option<Id>, newRun: Id, item: Id, cap: int, now: int)
    requires RetryAnswer(w.db, run, niche).0 == Ok
    ensures
      var (db, job) := (Run(w, es).db, RetryAnswer(w.db, run, niche).1);
      && RetryAnswer(db, run, niche) == (Ok, job)
      && RetryRunDb(db, run, niche, newRun, item, cap, now)
           == EnqueueJobDb(db, job, niche, newRun, item, None, cap, now, now)
  {
    FinalStatesAbsorb(w, es);
  }

  // ---------------------------------------------------------------- timestamps and counts

  /** Completion times mark exactly the final states, and a run has a start time unless it never started. */
  predicate ItemTimes(row: QueueItem) {
    row.completedAt.Some? <==> TerminalItem(row.state)
  }

  predicate RunTimes(row: JobRun) {
    && (row.finishedAt.Some? <==> TerminalRun(row.status))
    && (row.status == Pending ==> row.startedAt == None)
    && (row.status == Running || row.status == Success || row.status == RunFailed ==> row.startedAt.Some?)
  }

  ghost predicate Kept(w: World) {
    && w.tally.Keys == w.db.items.Keys
    && (forall i :: i in w.db.items ==> ItemTimes(w.db.items[i]) && w.tally[i].claims == w.db.items[i].attempts)
    && (forall r :: r in w.db.runs ==> RunTimes(w.db.runs[r]))
  }

  lemma WorkKeepsItem(w: World, d: Id, step: WorkerStep, i: Id)
    requires i in w.db.items && i in w.tally
    requires ItemTimes(w.db.items[i]) && w.tally[i].claims == w.db.items[i].attempts
    ensures
      var w' := Step(w, Work(d, step));
      && i in w'.db.items && i in w'.tally
      && ItemTimes(w'.db.items[i]) && w'.tally[i].claims == w'.db.items[i].attempts
  {
  }

  lemma StepKeepsItem(w: World, e: Event, i: Id)
    requires w.tally.Keys == w.db.items.Keys
    requires i in w.db.items ==> ItemTimes(w.db.items[i]) && w.tally[i].claims == w.db.items[i].attempts
    ensures i in Step(w, e).db.items <==> i in Step(w, e).tally
    ensures i in Step(w, e).db.items ==>
              ItemTimes(Step(w, e).db.items[i]) && Step(w, e).tally[i].claims == Step(w, e).db.items[i].attempts
  {
    if e.Work? && i in w.db.items {
      WorkKeepsItem(w, e.delivery, e.step, i);
    } else if !e.Work? {
      OthersLeaveDeliveries(w, e);
      if i in w.db.items { OthersKeepItem(w, e, i); } else if i in Step(w, e).db.items { NewItemKept(w, e, i); }
    }
  }

  lemma OthersKeepItem(w: World, e: Event, i: Id)
    requires !e.Work? && i in w.db.items && i in w.tally
    requires ItemTimes(w.db.items[i]) && w.tally[i].claims == w.db.items[i].attempts
    ensures
      var w' := Step(w, e);
      && i in w'.db.items && i in w'.tally
      && ItemTimes(w'.db.items[i]) && w'.tally[i].claims == w'.db.items[i].attempts
  {
    if e.Enqueue? || e.EnqueueJob? || e.RetryRun? { NewWorkSparesItem(w, e, i); }
  }

  lemma NewItemKept(w: World, e: Event, i: Id)
    requires !e.Work? && i !in w.db.items && i !in w.tally && i in Step(w, e).db.items && i in Step(w, e).tally
    ensures ItemTimes(Step(w, e).db.items[i]) && Step(w, e).tally[i].claims == Step(w, e).db.items[i].attempts
  {
  }

  lemma StepKeepsRun(w: World, e: Event, r: Id)
    requires r in w.db.runs ==> RunTimes(w.db.runs[r])
    ensures r in Step(w, e).db.runs ==> RunTimes(Step(w, e).db.runs[r])
  {
    if e.Work? {
      WorkKeepsRun(w, e.delivery, e.step, r);
    } else if e.Enqueue? || e.EnqueueJob? || e.RetryRun? {
      NewWorkKeepsRun(w, e, r);
    }
  }

  lemma WorkKeepsRun(w: World, d: Id, step: WorkerStep, r: Id)
    requires r in w.db.runs ==> RunTimes(w.db.runs[r])
    ensures r in Step(w, Work(d, step)).db.runs ==> RunTimes(Step(w, Work(d, step)).db.runs[r])
  {
  }

  lemma NewWorkKeepsRun(w: World, e: Event, r: Id)
    requires e.Enqueue? || e.EnqueueJob? || e.RetryRun?
    requires r in w.db.runs ==> RunTimes(w.db.runs[r])
    ensures r in Step(w, e).db.runs ==> RunTimes(Step(w, e).db.runs[r])
  {
  }

  lemma StepKeeps(w: World, e: Event)
    requires Kept(w)
    ensures Kept(Step(w, e))
  {
    var w' := Step(w, e);
    forall i
      ensures i in w'.db.items <==> i in w'.tally
      ensures i in w'.db.items ==> ItemTimes(w'.db.items[i]) && w'.tally[i].claims == w'.db.items[i].attempts
    {
      StepKeepsItem(w, e, i);
    }
    forall r | r in w'.db.runs ensures RunTimes(w'.db.runs[r]) { StepKeepsRun(w, e, r); }
  }

  lemma {:induction false} RunKeeps(w: World, es: seq<Event>)
    requires Kept(w)
    ensures Kept(Run(w, es))
    decreases |es|
  {
    if es != [] {
      StepKeeps(w, es[0]);
      RunKeeps(Step(w, es[0]), es[1..]);
    }
  }

  /** In every run, `attempts` is exactly the number of queued-to-claimed steps, and the times mark the final states. */
  lemma TimesAndCounts(jobs: map<Id, ScheduledJob>, es: seq<Event>)
    ensures Kept(Run(Initial(jobs), es))
  {
    RunKeeps(Initial(jobs), es);
  }

  // ---------------------------------------------------------------- a run and its item

  /** The item names the run, and no other item does. */
  ghost predicate Exclusive(db: Db, i: Id, r: Id) {
    && i in db.items && LinkedRun(db.items[i].payload) == Some(r)
    && forall j :: j in db.items && LinkedRun(db.items[j].payload) == Some(r) ==> j == i
  }

  /** Every run was created together with an item that names it. */
  ghost predicate RunsOwned(db: Db) {
    forall r :: r in db.runs ==> exists j :: j in db.items && LinkedRun(db.items[j].payload) == Some(r)
  }

  /** A claim that may start the run but has not yet. */
  predicate MayStart(d: Delivery) {
    d.newly && (d.phase.Resolving? || d.phase.Starting?)
  }

  ghost function Waiting(ds: Deliveries, i: Id): set<Id> {
    set d | d in ds && ds[d].item == i && MayStart(ds[d])
  }

  ghost predicate StartsCovered(w: World, i: Id, r: Id) {
    Exclusive(w.db, i, r) && r in w.db.runs ==>
      w.db.runs[r].attempts + |Waiting(w.deliveries, i)| <= w.db.items[i].attempts
  }

  /** Runs appear only through an item that names them. */
  lemma NewRunHasItem(w: World, e: Event, r: Id)
    requires r in Step(w, e).db.runs && r !in w.db.runs
    ensures e.EnqueueJob? || e.RetryRun?
    ensures e.newItem !in w.db.items && e.newItem in Step(w, e).db.items
    ensures LinkedRun(Step(w, e).db.items[e.newItem].payload) == Some(r)
    ensures Step(w, e).db.runs[r].status == Pending && Step(w, e).db.runs[r].attempts == 0
  {
  }

  lemma StepKeepsRunsOwned(w: World, e: Event)
    requires RunsOwned(w.db)
    ensures RunsOwned(Step(w, e).db)
  {
    StepPersists(w, e);
    var w' := Step(w, e);
    forall r | r in w'.db.runs
      ensures exists j :: j in w'.db.items && LinkedRun(w'.db.items[j].payload) == Some(r)
    {
      if r in w.db.runs {
        var j :| j in w.db.items && LinkedRun(w.db.items[j].payload) == Some(r);
        assert j in w'.db.items;
      } else {
        NewRunHasItem(w, e, r);
      }
    }
  }

  /** Exclusivity is never gained by an old item, and a new item has it only over a run created with it. */
  lemma ExclusiveBefore(w: World, e: Event, i: Id, r: Id)
    requires RunsOwned(w.db) && Exclusive(Step(w, e).db, i, r)
    ensures i in w.db.items ==> Exclusive(w.db, i, r)
    ensures i !in w.db.items ==> r !in w.db.runs
    ensures r in Step(w, e).db.runs && r !in w.db.runs ==> i !in w.db.items
  {
    StepPersists(w, e);
    if r in Step(w, e).db.runs && r !in w.db.runs { NewRunHasItem(w, e, r); }
  }

  lemma OthersKeepAttempts(w: World, e: Event, i: Id, r: Id)
    requires !e.Work? && r in w.db.runs
    ensures r in Step(w, e).db.runs && Step(w, e).db.runs[r].attempts == w.db.runs[r].attempts
  {
  }

  lemma DeliverKeepsCover(w: World, d: Id, item: Id, i: Id, r: Id)
    requires i in w.db.items && r in w.db.runs
    requires w.db.runs[r].attempts + |Waiting(w.deliveries, i)| <= w.db.items[i].attempts
    ensures
      var w' := Step(w, Work(d, Deliver(item)));
      && r in w'.db.runs && i in w'.db.items
      && w'.db.runs[r].attempts + |Waiting(w'.deliveries, i)| <= w'.db.items[i].attempts
  {
    if d !in w.deliveries && ClaimAnswer(w.db, item).GotClaim? {
      var answer := ClaimAnswer(w.db, item);
      var job := Delivery(item, answer.newly, answer.seen, answer.limit, answer.payload, Resolving);
      ArrivalWaits(w.deliveries, d, job, i);
    }
  }

  lemma ArrivalWaits(ds: Deliveries, d: Id, job: Delivery, i: Id)
    requires d !in ds
    ensures |Waiting(ds[d := job], i)| <= |Waiting(ds, i)| + OneIf(job.item == i && job.newly)
  {
    if job.item == i && job.newly {
      assert Waiting(ds[d := job], i) <= Waiting(ds, i) + {d};
      SubsetSize(Waiting(ds[d := job], i), Waiting(ds, i) + {d});
    } else {
      assert Waiting(ds[d := job], i) == Waiting(ds, i);
    }
  }

  lemma StartKeepsCover(w: World, d: Id, at: int, i: Id, r: Id)
    requires d in w.deliveries && DeliveryOk(w.db, w.deliveries[d])
    requires Exclusive(w.db, i, r) && r in w.db.runs
    requires w.db.runs[r].attempts + |Waiting(w.deliveries, i)| <= w.db.items[i].attempts
    ensures
      var w' := Step(w, Work(d, Start(at)));
      && r in w'.db.runs && w'.db.items == w.db.items
      && w'.db.runs[r].attempts + |Waiting(w'.deliveries, i)| <= w.db.items[i].attempts
  {
    var w' := Step(w, Work(d, Start(at)));
    if w.deliveries[d].phase.Starting? {
      assert Waiting(w'.deliveries, i) == Waiting(w.deliveries, i) - {d};
      if w.deliveries[d].phase.start == r {
        assert w.deliveries[d].item == i;
        assert d in Waiting(w.deliveries, i);
      }
    }
  }

  lemma MoveKeepsCover(w: World, d: Id, step: WorkerStep, i: Id, r: Id)
    requires !step.Deliver? && !step.Start? && r in w.db.runs
    ensures
      var w' := Step(w, Work(d, step));
      && r in w'.db.runs && w'.db.runs[r].attempts == w.db.runs[r].attempts
      && |Waiting(w'.deliveries, i)| <= |Waiting(w.deliveries, i)|
  {
    var w' := Step(w, Work(d, step));
    assert Waiting(w'.deliveries, i) <= Waiting(w.deliveries, i);
    SubsetSize(Waiting(w'.deliveries, i), Waiting(w.deliveries, i));
  }

  lemma WorkKeepsCover(w: World, d: Id, step: WorkerStep, i: Id, r: Id)
    requires WellFormed(w) && Exclusive(w.db, i, r) && r in w.db.runs && StartsCovered(w, i, r)
    ensures StartsCovered(Step(w, Work(d, step)), i, r)
  {
    if step.Deliver? {
      DeliverKeepsCover(w, d, step.item, i, r);
    } else if d !in w.deliveries {
      assert Step(w, Work(d, step)).deliveries == w.deliveries;
    } else if step.Start? {
      StartKeepsCover(w, d, step.at, i, r);
    } else {
      MoveKeepsCover(w, d, step, i, r);
      WorkPersists(w, d, step);
    }
  }

  lemma StepKeepsCover(w: World, e: Event, i: Id, r: Id)
    requires WellFormed(w) && RunsOwned(w.db) && StartsCovered(w, i, r)
    ensures StartsCovered(Step(w, e), i, r)
  {
    var w' := Step(w, e);
    if Exclusive(w'.db, i, r) && r in w'.db.runs {
      ExclusiveBefore(w, e, i, r);
      if r in w.db.runs {
        StepPersists(w, e);
        if e.Work? {
          WorkKeepsCover(w, e.delivery, e.step, i, r);
        } else {
          OthersLeaveDeliveries(w, e);
          OthersKeepAttempts(w, e, i, r);
        }
      } else {
        NewRunHasItem(w, e, r);
        OthersLeaveDeliveries(w, e);
        NoDeliveryBefore(w, i);
        assert Waiting(w'.deliveries, i) == {};
      }
    }
  }

  lemma {:induction false} RunKeepsCover(w: World, es: seq<Event>, i: Id, r: Id)
    requires WellFormed(w) && RunsOwned(w.db) && StartsCovered(w, i, r)
    ensures StartsCovered(Run(w, es), i, r)
    decreases |es|
  {
    if es != [] {
      StepKeepsCover(w, es[0], i, r);
      StepWellFormed(w, es[0]);
      StepKeepsRunsOwned(w, es[0]);
      RunKeepsCover(Step(w, es[0]), es[1..], i, r);
    }
  }

  /** In every run, a run is started at most as often as the one item that names it was claimed. */
  lemma RunAttemptsWithinItem(jobs: map<Id, ScheduledJob>, es: seq<Event>, i: Id, r: Id)
    ensures
      var db := Run(Initial(jobs), es).db;
      Exclusive(db, i, r) && r in db.runs ==> db.runs[r].attempts <= db.items[i].attempts
  {
    RunKeepsCover(Initial(jobs), es, i, r);
  }
}
