/** What every step of the queue protocol keeps, and what follows for every run. */
module QueueSafety {
  import opened Prelude
  import opened QueueLedger
  import opened QueueProtocol

  // ---------------------------------------------------------------- shape of reachable worlds

  function PhaseRun(phase: Phase): Option<Id> {
    match phase
    case Resolving => None
    case Starting(run) => Some(run)
    case Executing(run) => run
    case Writing(run, _) => run
  }

  /** A delivery remembers its item's payload and cap, and works for the run the payload names. */
  ghost predicate DeliveryOk(db: Db, d: Delivery) {
    && d.item in db.items
    && d.payload == db.items[d.item].payload
    && d.limit == db.items[d.item].maxAttempts
    && 1 <= d.seen <= db.items[d.item].attempts
    && (PhaseRun(d.phase).Some? ==> PhaseRun(d.phase) == LinkedRun(d.payload))
    && (d.phase.Starting? ==> d.newly)
    && (d.phase.Writing? && d.phase.ending.Requeue? ==> d.seen < d.limit)
  }

  ghost predicate WellFormed(w: World) {
    && w.tally.Keys == w.db.items.Keys
    && (forall i :: i in w.db.items && w.db.items[i].state == Claimed ==> w.db.items[i].attempts >= 1)
    && forall d :: d in w.deliveries ==> DeliveryOk(w.db, w.deliveries[d])
  }

  /** Items are never dropped; their payload and cap never change and their attempts never fall. */
  ghost predicate ItemsPersist(db: Db, db': Db) {
    forall i :: i in db.items ==>
      && i in db'.items
      && db'.items[i].payload == db.items[i].payload
      && db'.items[i].maxAttempts == db.items[i].maxAttempts
      && db'.items[i].attempts >= db.items[i].attempts
  }

  lemma WorkPersists(w: World, d: Id, step: WorkerStep)
    ensures ItemsPersist(w.db, Step(w, Work(d, step)).db)
  {
  }

  lemma OthersPersist(w: World, e: Event)
    requires !e.Work? && !e.Enqueue? && !e.EnqueueJob? && !e.RetryRun?
    ensures ItemsPersist(w.db, Step(w, e).db)
    ensures Step(w, e).db.items.Keys == w.db.items.Keys
  {
  }

  lemma NewWorkPersists(w: World, e: Event)
    requires e.Enqueue? || e.EnqueueJob? || e.RetryRun?
    ensures
      var items := Step(w, e).db.items;
      items == w.db.items
      || (e.newItem !in w.db.items && e.newItem in items && items == w.db.items[e.newItem := items[e.newItem]]
          && items[e.newItem].state == Queued && items[e.newItem].attempts == 0)
  {
  }

  lemma NewWorkSparesItem(w: World, e: Event, i: Id)
    requires e.Enqueue? || e.EnqueueJob? || e.RetryRun?
    requires i in w.db.items && i in w.tally
    ensures i in Step(w, e).db.items && Step(w, e).db.items[i] == w.db.items[i]
    ensures i in Step(w, e).tally && Step(w, e).tally[i] == w.tally[i]
  {
    NewWorkPersists(w, e);
  }

  lemma StepPersists(w: World, e: Event)
    ensures ItemsPersist(w.db, Step(w, e).db)
  {
    if e.Work? {
      WorkPersists(w, e.delivery, e.step);
    } else if e.Enqueue? || e.EnqueueJob? || e.RetryRun? {
      NewWorkPersists(w, e);
    } else {
      OthersPersist(w, e);
    }
  }

  /** Only a worker's own step touches its delivery; everybody else leaves all deliveries alone. */
  lemma OthersLeaveDeliveries(w: World, e: Event)
    requires !e.Work?
    requires w.tally.Keys == w.db.items.Keys
    ensures Step(w, e).deliveries == w.deliveries
    ensures Step(w, e).tally.Keys == Step(w, e).db.items.Keys
  {
  }

  lemma ClaimedIsAttempted(w: World, e: Event, i: Id)
    requires i in w.db.items && w.db.items[i].state == Claimed ==> w.db.items[i].attempts >= 1
    requires i in Step(w, e).db.items && Step(w, e).db.items[i].state == Claimed
    ensures Step(w, e).db.items[i].attempts >= 1
  {
    if e.Enqueue? || e.EnqueueJob? || e.RetryRun? { NewWorkPersists(w, e); }
  }

  lemma WorkLeavesOthers(w: World, d: Id, step: WorkerStep, other: Id)
    requires other != d
    ensures other in Step(w, Work(d, step)).deliveries <==> other in w.deliveries
    ensures other in w.deliveries ==> Step(w, Work(d, step)).deliveries[other] == w.deliveries[other]
  {
  }

  lemma OwnDeliveryOk(w: World, d: Id, step: WorkerStep)
    requires WellFormed(w)
    ensures d in Step(w, Work(d, step)).deliveries ==>
              DeliveryOk(Step(w, Work(d, step)).db, Step(w, Work(d, step)).deliveries[d])
    ensures Step(w, Work(d, step)).tally.Keys == Step(w, Work(d, step)).db.items.Keys
  {
    StepPersists(w, Work(d, step));
    if step.Deliver? {
      ArrivalOk(w, d, step.item);
    } else if d in w.deliveries {
      assert DeliveryOk(w.db, w.deliveries[d]);
      MovedOk(w, d, step);
    }
  }

  lemma ArrivalOk(w: World, d: Id, item: Id)
    requires WellFormed(w)
    ensures
      var w' := Step(w, Work(d, Deliver(item)));
      && (d in w'.deliveries ==> DeliveryOk(w'.db, w'.deliveries[d]))
      && w'.tally.Keys == w'.db.items.Keys
  {
    if d in w.deliveries { assert DeliveryOk(w.db, w.deliveries[d]); }
  }

  lemma MovedOk(w: World, d: Id, step: WorkerStep)
    requires !step.Deliver? && d in w.deliveries && DeliveryOk(w.db, w.deliveries[d]) && w.tally.Keys == w.db.items.Keys
    ensures
      var w' := Step(w, Work(d, step));
      && (d in w'.deliveries ==> DeliveryOk(w'.db, w'.deliveries[d]))
      && w'.tally.Keys == w'.db.items.Keys
  {
  }

  lemma StepWellFormed(w: World, e: Event)
    requires WellFormed(w)
    ensures WellFormed(Step(w, e))
  {
    StepPersists(w, e);
    var w' := Step(w, e);
    forall i | i in w'.db.items && w'.db.items[i].state == Claimed
      ensures w'.db.items[i].attempts >= 1
    {
      ClaimedIsAttempted(w, e, i);
    }
    if e.Work? { OwnDeliveryOk(w, e.delivery, e.step); } else { OthersLeaveDeliveries(w, e); }
    forall d | d in w'.deliveries
      ensures DeliveryOk(w'.db, w'.deliveries[d])
    {
      if !(e.Work? && e.delivery == d) {
        if e.Work? { WorkLeavesOthers(w, e.delivery, e.step, d); }
        assert DeliveryOk(w.db, w.deliveries[d]);
      }
    }
  }

  // ---------------------------------------------------------------- the attempt bound

  type Deliveries = map<Id, Delivery>

  /** Live deliveries of an item that found it already claimed. */
  ghost function FoundLive(ds: Deliveries, i: Id): set<Id> {
    set d | d in ds && ds[d].item == i && !ds[d].newly
  }

  predicate Claimant(ds: Deliveries, d: Id, i: Id) {
    d in ds && ds[d].item == i && ds[d].newly
  }

  /**
   Where an item's claims were paid for. Being queued once pays for one claim and every retry for
   another. A requeue pays for one more: if by a newly claimed delivery, with the attempt count it saw,
   which no other such delivery shares and which is below the cap (`spent`); otherwise out of the
   redeliveries (`late`).
   */
  ghost predicate Budget(w: World, i: Id, spent: set<nat>, late: nat) {
    && WellFormed(w)
    && Spending(w.db.items, w.tally, i, spent, late)
    && FoundCovers(w, i, late)
    && OwnClaims(w.deliveries, i, spent)
  }

  ghost predicate Spending(items: map<Id, QueueItem>, tally: map<Id, Tally>, i: Id, spent: set<nat>, late: nat) {
    && (i !in items ==> spent == {} && late == 0)
    && (i in items && i in tally ==>
          var row := items[i];
          && row.attempts + OneIf(row.state == Queued) <= 1 + |spent| + late + tally[i].retries
          && (forall x :: x in spent ==> 1 <= x < row.maxAttempts && x <= row.attempts)
          && (late > 0 ==> row.maxAttempts >= 2))
  }

  ghost predicate FoundCovers(w: World, i: Id, late: nat) {
    i in w.tally ==> late + |FoundLive(w.deliveries, i)| <= w.tally[i].found
  }

  /** Newly claimed deliveries of an item saw attempt counts of their own, none of them spent yet. */
  ghost predicate OwnClaims(ds: Deliveries, i: Id, spent: set<nat>) {
    && (forall d :: Claimant(ds, d, i) ==> ds[d].seen !in spent)
    && (forall d, d' :: Claimant(ds, d, i) && Claimant(ds, d', i) && d != d' ==> ds[d].seen != ds[d'].seen)
  }

  /** The payments after one step; only a requeue of this item changes them. */
  ghost function Paid(w: World, e: Event, i: Id, spent: set<nat>, late: nat): (set<nat>, nat) {
    if e.Work? && e.step.Write? && e.delivery in w.deliveries && RequeuesItem(w, w.deliveries[e.delivery], i)
    then
      if w.deliveries[e.delivery].newly then (spent + {w.deliveries[e.delivery].seen}, late) else (spent, late + 1)
    else (spent, late)
  }

  predicate RequeuesItem(w: World, d: Delivery, i: Id) {
    d.item == i && d.phase.Writing? && d.phase.ending.Requeue? && i in w.db.items && w.db.items[i].state == Claimed
  }

  // -- nobody but a worker

  /** A place in the queue is given back by a retry alone. */
  lemma OthersPlaces(w: World, e: Event, i: Id)
    requires !e.Work? && i in w.db.items && i in w.tally
    ensures
      var w' := Step(w, e);
      && i in w'.db.items && i in w'.tally
      && var (row, row', more) := (w.db.items[i], w'.db.items[i], w'.tally[i].retries - w.tally[i].retries);
         && row'.attempts + OneIf(row'.state == Queued) <= row.attempts + OneIf(row.state == Queued) + more
         && row'.attempts >= row.attempts && row'.maxAttempts == row.maxAttempts
  {
    if e.Enqueue? || e.EnqueueJob? || e.RetryRun? { NewWorkSparesItem(w, e, i); }
  }

  lemma OthersBringFresh(w: World, e: Event, i: Id)
    requires !e.Work? && i !in w.db.items && i in Step(w, e).db.items
    ensures Step(w, e).db.items[i].attempts == 0
  {
    if e.Enqueue? || e.EnqueueJob? || e.RetryRun? { NewWorkPersists(w, e); }
  }

  lemma OthersSpend(w: World, e: Event, i: Id, spent: set<nat>, late: nat)
    requires !e.Work? && w.tally.Keys == w.db.items.Keys
    requires Spending(w.db.items, w.tally, i, spent, late)
    ensures Spending(Step(w, e).db.items, Step(w, e).tally, i, spent, late)
  {
    if i in w.db.items {
      OthersPlaces(w, e, i);
    } else if i in Step(w, e).db.items {
      OthersBringFresh(w, e, i);
    }
  }

  lemma OthersTally(w: World, e: Event, i: Id)
    requires !e.Work? && w.tally.Keys == w.db.items.Keys
    ensures i in Step(w, e).tally && i in w.tally ==> Step(w, e).tally[i].found == w.tally[i].found
    ensures i in w.tally ==> i in Step(w, e).tally
  {
  }

  lemma NoDeliveryBefore(w: World, i: Id)
    requires WellFormed(w) && i !in w.db.items
    ensures forall d :: d in w.deliveries ==> w.deliveries[d].item != i
    ensures FoundLive(w.deliveries, i) == {}
  {
    forall d | d in w.deliveries ensures w.deliveries[d].item != i { assert DeliveryOk(w.db, w.deliveries[d]); }
  }

  lemma OthersKeepBudget(w: World, e: Event, i: Id, spent: set<nat>, late: nat)
    requires !e.Work? && Budget(w, i, spent, late)
    ensures Budget(Step(w, e), i, spent, late)
  {
    StepWellFormed(w, e);
    OthersLeaveDeliveries(w, e);
    OthersSpend(w, e, i, spent, late);
    OthersTally(w, e, i);
    if i !in w.db.items { NoDeliveryBefore(w, i); }
  }

  // -- a delivery arriving

  /** A new claimant sees a count above every count seen or spent before. */
  lemma ArrivalOwnsItsClaim(ds: Deliveries, d: Id, job: Delivery, i: Id, spent: set<nat>, attempts: nat)
    requires d !in ds && OwnClaims(ds, i, spent)
    requires job.item == i && job.newly && job.seen == attempts + 1
    requires forall x :: x in spent ==> x <= attempts
    requires forall other :: Claimant(ds, other, i) ==> ds[other].seen <= attempts
    ensures OwnClaims(ds[d := job], i, spent)
  {
    forall other ensures Claimant(ds[d := job], other, i) <==> Claimant(ds, other, i) || other == d {}
  }

  lemma ArrivalElsewhere(ds: Deliveries, d: Id, job: Delivery, i: Id, spent: set<nat>)
    requires d !in ds && OwnClaims(ds, i, spent)
    requires job.item != i || !job.newly
    ensures OwnClaims(ds[d := job], i, spent)
    ensures FoundLive(ds[d := job], i) == FoundLive(ds, i) + (if job.item == i then {d} else {})
  {
    forall other ensures Claimant(ds[d := job], other, i) <==> Claimant(ds, other, i) {}
  }

  lemma DeliverSpends(w: World, d: Id, item: Id, i: Id, spent: set<nat>, late: nat)
    requires w.tally.Keys == w.db.items.Keys
    requires Spending(w.db.items, w.tally, i, spent, late)
    ensures
      var w' := Step(w, Work(d, Deliver(item)));
      Spending(w'.db.items, w'.tally, i, spent, late)
  {
  }

  /** A delivery that arrives brings only itself. */
  lemma DeliverArrives(w: World, d: Id, item: Id) returns (job: Delivery)
    requires Step(w, Work(d, Deliver(item))) != w
    ensures
      var w' := Step(w, Work(d, Deliver(item)));
      && d !in w.deliveries && w'.deliveries == w.deliveries[d := job] && job.item == item && item in w.db.items
      && (job.newly ==> job.seen == w.db.items[item].attempts + 1)
      && (forall i :: i in w'.tally ==>
            i in w.tally && w'.tally[i].found == w.tally[i].found + OneIf(i == item && !job.newly))
  {
    job := Step(w, Work(d, Deliver(item))).deliveries[d];
  }

  lemma ArrivalKeepsClaims(w: World, d: Id, job: Delivery, i: Id, spent: set<nat>, late: nat)
    requires Budget(w, i, spent, late) && d !in w.deliveries && job.item in w.db.items
    requires job.newly ==> job.seen == w.db.items[job.item].attempts + 1
    ensures OwnClaims(w.deliveries[d := job], i, spent)
    ensures |FoundLive(w.deliveries[d := job], i)| == |FoundLive(w.deliveries, i)| + OneIf(i == job.item && !job.newly)
  {
    if job.item == i && job.newly {
      forall other | Claimant(w.deliveries, other, i) ensures w.deliveries[other].seen <= w.db.items[i].attempts {
        assert DeliveryOk(w.db, w.deliveries[other]);
      }
      ArrivalOwnsItsClaim(w.deliveries, d, job, i, spent, w.db.items[i].attempts);
      assert FoundLive(w.deliveries[d := job], i) == FoundLive(w.deliveries, i);
    } else {
      ArrivalElsewhere(w.deliveries, d, job, i, spent);
    }
  }

  lemma DeliverKeepsBudget(w: World, d: Id, item: Id, i: Id, spent: set<nat>, late: nat)
    requires Budget(w, i, spent, late)
    ensures Budget(Step(w, Work(d, Deliver(item))), i, spent, late)
  {
    var w' := Step(w, Work(d, Deliver(item)));
    if w' != w {
      StepWellFormed(w, Work(d, Deliver(item)));
      DeliverSpends(w, d, item, i, spent, late);
      var job := DeliverArrives(w, d, item);
      ArrivalKeepsClaims(w, d, job, i, spent, late);
    }
  }

  // -- a delivery moving on

  /** Moving on changes a delivery's phase and, when it starts the run, that run. */
  lemma MoveShape(w: World, d: Id, step: WorkerStep)
    requires step.Resolve? || step.Start? || step.Finish?
    ensures
      var w' := Step(w, Work(d, step));
      && w'.db.items == w.db.items && w'.tally == w.tally && w'.deliveries.Keys == w.deliveries.Keys
      && forall x :: x in w.deliveries ==>
           var (a, b) := (w.deliveries[x], w'.deliveries[x]);
           b.item == a.item && b.newly == a.newly && b.seen == a.seen
  {
  }

  lemma MoveKeepsBudget(w: World, d: Id, step: WorkerStep, i: Id, spent: set<nat>, late: nat)
    requires step.Resolve? || step.Start? || step.Finish?
    requires Budget(w, i, spent, late)
    ensures Budget(Step(w, Work(d, step)), i, spent, late)
  {
    var w' := Step(w, Work(d, step));
    StepWellFormed(w, Work(d, step));
    MoveShape(w, d, step);
    MoveKeepsClaims(w.deliveries, w'.deliveries, i, spent);
  }

  lemma MoveKeepsClaims(ds: Deliveries, ds': Deliveries, i: Id, spent: set<nat>)
    requires ds'.Keys == ds.Keys
    requires forall d :: d in ds ==> ds'[d].item == ds[d].item && ds'[d].newly == ds[d].newly && ds'[d].seen == ds[d].seen
    ensures FoundLive(ds', i) == FoundLive(ds, i)
    ensures OwnClaims(ds, i, spent) ==> OwnClaims(ds', i, spent)
  {
    forall d ensures Claimant(ds', d, i) <==> Claimant(ds, d, i) {}
  }

  // -- a delivery leaving

  /** A delivery that leaves takes its own count with it, so that count may now be spent. */
  lemma LeaveKeepsClaims(ds: Deliveries, d: Id, i: Id, spent: set<nat>)
    requires d in ds && OwnClaims(ds, i, spent)
    ensures OwnClaims(ds - {d}, i, spent)
    ensures Claimant(ds, d, i) ==> OwnClaims(ds - {d}, i, spent + {ds[d].seen})
    ensures FoundLive(ds - {d}, i) == FoundLive(ds, i) - {d}
  {
    forall other ensures Claimant(ds - {d}, other, i) <==> Claimant(ds, other, i) && other != d {}
  }

  /** A delivery that leaves gives a place in the queue back only by a requeue. */
  lemma LeavePlaces(w: World, d: Id, step: WorkerStep, i: Id)
    requires step.Write? || step.Crash?
    requires d in w.deliveries && i in w.db.items
    ensures
      var w' := Step(w, Work(d, step));
      && w'.tally == w.tally && i in w'.db.items
      && var (row, row') := (w.db.items[i], w'.db.items[i]);
         && row'.attempts == row.attempts && row'.maxAttempts == row.maxAttempts
         && (row'.state == Queued <==> row.state == Queued || (step.Write? && RequeuesItem(w, w.deliveries[d], i)))
  {
  }

  lemma LeaveBringsNone(w: World, d: Id, step: WorkerStep, i: Id)
    requires (step.Write? || step.Crash?) && i !in w.db.items
    ensures i !in Step(w, Work(d, step)).db.items
  {
  }

  /** A requeue pays for the place in the queue that it gives back. */
  lemma LeaveSpends(w: World, d: Id, step: WorkerStep, i: Id, spent: set<nat>, late: nat)
    requires step.Write? || step.Crash?
    requires w.tally.Keys == w.db.items.Keys && Spending(w.db.items, w.tally, i, spent, late)
    requires d in w.deliveries && DeliveryOk(w.db, w.deliveries[d])
    requires Claimant(w.deliveries, d, i) ==> w.deliveries[d].seen !in spent
    ensures
      var (spent', late') := Paid(w, Work(d, step), i, spent, late);
      var w' := Step(w, Work(d, step));
      Spending(w'.db.items, w'.tally, i, spent', late')
  {
    if i in w.db.items { LeavePlaces(w, d, step, i); } else { LeaveBringsNone(w, d, step, i); }
    if Claimant(w.deliveries, d, i) {
      assert |spent + {w.deliveries[d].seen}| == |spent| + 1;
    }
  }

  lemma LeaveKeepsFound(ds: Deliveries, d: Id, i: Id)
    requires d in ds
    ensures |FoundLive(ds - {d}, i)| == |FoundLive(ds, i)| - OneIf(ds[d].item == i && !ds[d].newly)
  {
    assert FoundLive(ds - {d}, i) == FoundLive(ds, i) - {d};
    assert d in FoundLive(ds, i) <==> ds[d].item == i && !ds[d].newly;
  }

  lemma LeaveKeepsBudget(w: World, d: Id, step: WorkerStep, i: Id, spent: set<nat>, late: nat)
    requires step.Write? || step.Crash?
    requires Budget(w, i, spent, late)
    ensures
      var (spent', late') := Paid(w, Work(d, step), i, spent, late);
      Budget(Step(w, Work(d, step)), i, spent', late')
  {
    var w' := Step(w, Work(d, step));
    StepWellFormed(w, Work(d, step));
    if d in w.deliveries {
      assert DeliveryOk(w.db, w.deliveries[d]);
      LeaveSpends(w, d, step, i, spent, late);
      if step.Crash? || w.deliveries[d].phase.Writing? {
        assert w'.deliveries == w.deliveries - {d} && w'.tally == w.tally;
        LeaveKeepsClaims(w.deliveries, d, i, spent);
        LeaveKeepsFound(w.deliveries, d, i);
      }
    } else {
      assert w'.deliveries == w.deliveries;
    }
  }

  lemma StepKeepsBudget(w: World, e: Event, i: Id, spent: set<nat>, late: nat)
    requires Budget(w, i, spent, late)
    ensures
      var (spent', late') := Paid(w, e, i, spent, late);
      Budget(Step(w, e), i, spent', late')
  {
    if !e.Work? {
      OthersKeepBudget(w, e, i, spent, late);
    } else if e.step.Deliver? {
      DeliverKeepsBudget(w, e.delivery, e.step.item, i, spent, late);
    } else if e.step.Write? || e.step.Crash? {
      LeaveKeepsBudget(w, e.delivery, e.step, i, spent, late);
    } else {
      MoveKeepsBudget(w, e.delivery, e.step, i, spent, late);
    }
  }

  lemma {:induction false} RunKeepsBudget(w: World, es: seq<Event>, i: Id, spent: set<nat>, late: nat)
    returns (spent': set<nat>, late': nat)
    requires Budget(w, i, spent, late)
    ensures Budget(Run(w, es), i, spent', late')
    decreases |es|
  {
    if es == [] {
      spent', late' := spent, late;
    } else {
      StepKeepsBudget(w, es[0], i, spent, late);
      var paid := Paid(w, es[0], i, spent, late);
      spent', late' := RunKeepsBudget(Step(w, es[0]), es[1..], i, paid.0, paid.1);
    }
  }

  /** The most attempts an item can get; below a cap of two a redelivery can never requeue it. */
  function AttemptCap(maxAttempts: int, found: nat, retries: nat): nat {
    if maxAttempts <= 1 then 1 + retries else maxAttempts + found + retries
  }

  /**
   In every run, whatever overlaps, crashes or is cancelled: an item is attempted at most its cap plus
   once for each delivery that found it already claimed and once for each retry.
   */
  lemma AttemptBound(jobs: map<Id, ScheduledJob>, es: seq<Event>, i: Id)
    ensures
      var w := Run(Initial(jobs), es);
      && w.tally.Keys == w.db.items.Keys
      && (i in w.db.items ==>
            w.db.items[i].attempts <= AttemptCap(w.db.items[i].maxAttempts, w.tally[i].found, w.tally[i].retries))
  {
    var spent, late := RunKeepsBudget(Initial(jobs), es, i, {}, 0);
    var w := Run(Initial(jobs), es);
    if i in w.db.items {
      RangeSize(spent, 1, Max(1, w.db.items[i].maxAttempts));
    }
  }
}
