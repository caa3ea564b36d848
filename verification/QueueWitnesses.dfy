/** Runs that reach the attempt bound, and runs in which an item and its run legitimately disagree. */
module QueueWitnesses {
  import opened Prelude
  import opened QueueLedger
  import opened QueueProtocol
  import opened QueueSafety

  // ---------------------------------------------------------------- the attempt bound is reached

  const WORK := BusinessRef("work")

  /** Redeliveries that saw the first attempt and have not acted yet. */
  function Stale(m: int, count: nat): (ds: Deliveries)
    ensures forall d :: d in ds <==> 1 <= d <= count
  {
    if count == 0 then map[] else Stale(m, count - 1)[count := Delivery(0, false, 1, m, WORK, Resolving)]
  }

  /** Item 0 under way. */
  function Busy(jobs: map<Id, ScheduledJob>, row: QueueItem, ds: Deliveries, t: Tally): World {
    World(Db(jobs, map[], map[0 := row]), ds, map[0 := t])
  }

  ghost predicate Row(row: QueueItem, m: int, state: QueueState, attempts: nat) {
    row.niche == None && row.payload == WORK && row.maxAttempts == m && row.state == state && row.attempts == attempts
  }

  /** Some run leads from one world to the other. */
  ghost predicate Leads(w: World, w': World) {
    exists es :: Run(w, es) == w'
  }

  lemma LeadsOn(a: World, b: World, c: World)
    requires Leads(a, b) && Leads(b, c)
    ensures Leads(a, c)
  {
    var es :| Run(a, es) == b;
    var es' :| Run(b, es') == c;
    RunAppend(a, es, es');
  }

  lemma OneStep(w: World, e: Event)
    ensures Leads(w, Step(w, e))
  {
    assert [e][1..] == [];
    assert Run(w, [e]) == Step(w, e);
  }

  lemma Then(w0: World, w: World, e: Event)
    requires Leads(w0, w)
    ensures Leads(w0, Step(w, e))
  {
    OneStep(w, e);
    LeadsOn(w0, w, Step(w, e));
  }

  /** The worker that claimed the item, having seen `seen` attempts. */
  function Owner(m: int, seen: nat): Delivery {
    Delivery(0, true, seen, m, WORK, Resolving)
  }

  lemma RedeliveredOnce(jobs: map<Id, ScheduledJob>, m: int, row: QueueItem, count: nat)
    requires Row(row, m, Claimed, 1) && count > 0
    ensures
      Step(Busy(jobs, row, Stale(m, count - 1)[0 := Owner(m, 1)], Tally(1, count - 1, 0)), Work(count, Deliver(0)))
      == Busy(jobs, row, Stale(m, count)[0 := Owner(m, 1)], Tally(1, count, 0))
  {
    var ds: Deliveries := Stale(m, count - 1);
    assert ds[0 := Owner(m, 1)][count := Delivery(0, false, 1, m, WORK, Resolving)] == Stale(m, count)[0 := Owner(m, 1)];
  }

  lemma {:induction false} Redelivered(jobs: map<Id, ScheduledJob>, m: int, row: QueueItem, count: nat)
    requires Row(row, m, Claimed, 1)
    ensures Leads(Busy(jobs, row, map[0 := Owner(m, 1)], Tally(1, 0, 0)),
                  Busy(jobs, row, Stale(m, count)[0 := Owner(m, 1)], Tally(1, count, 0)))
  {
    var w := Busy(jobs, row, map[0 := Owner(m, 1)], Tally(1, 0, 0));
    if count == 0 {
      assert Run(w, []) == w;
      assert Stale(m, count)[0 := Owner(m, 1)] == map[0 := Owner(m, 1)];
    } else {
      Redelivered(jobs, m, row, count - 1);
      RedeliveredOnce(jobs, m, row, count);
      Then(w, Busy(jobs, row, Stale(m, count - 1)[0 := Owner(m, 1)], Tally(1, count - 1, 0)), Work(count, Deliver(0)));
    }
  }

  /** A delivery below the cap fails retryably and puts the item back in the queue. */
  lemma Requeues(jobs: map<Id, ScheduledJob>, m: int, row: QueueItem, ds: Deliveries, t: Tally, d: Id)
    returns (row': QueueItem)
    requires Row(row, m, Claimed, row.attempts)
    requires d in ds && ds[d] == Delivery(0, ds[d].newly, ds[d].seen, m, WORK, Resolving) && ds[d].seen < m
    ensures Row(row', m, Queued, row.attempts)
    ensures Leads(Busy(jobs, row, ds, t), Busy(jobs, row', ds - {d}, t))
  {
    var w := Busy(jobs, row, ds, t);
    var w1 := Step(w, Work(d, Resolve(true)));
    assert w1.deliveries[d].phase == Executing(None);
    var w2 := Step(w1, Work(d, Finish(Bad("failed", true), 0, 0)));
    assert w2.deliveries[d].phase == Writing(None, Requeue(0, "failed"));
    var w3 := Step(w2, Work(d, Write(0)));
    row' := row.(state := Queued, runAt := 0, error := Some("failed"));
    assert w3.deliveries == ds - {d};
    assert w3.db.items == map[0 := row'];
    OneStep(w, Work(d, Resolve(true)));
    Then(w, w1, Work(d, Finish(Bad("failed", true), 0, 0)));
    Then(w, w2, Work(d, Write(0)));
  }

  lemma Claims(jobs: map<Id, ScheduledJob>, m: int, row: QueueItem, ds: Deliveries, t: Tally)
    returns (row': QueueItem)
    requires Row(row, m, Queued, row.attempts) && 0 !in ds
    ensures Row(row', m, Claimed, row.attempts + 1)
    ensures Leads(Busy(jobs, row, ds, t),
                  Busy(jobs, row', ds[0 := Owner(m, row.attempts + 1)], t.(claims := t.claims + 1)))
  {
    var w := Busy(jobs, row, ds, t);
    row' := row.(state := Claimed, attempts := row.attempts + 1);
    OneStep(w, Work(0, Deliver(0)));
    assert Step(w, Work(0, Deliver(0))).db.items == map[0 := row'];
  }

  /** The owner fails and claims again until it has used up the cap. */
  lemma {:induction false} Climbs(jobs: map<Id, ScheduledJob>, m: int, row: QueueItem, ds: Deliveries, t: Tally)
    returns (row': QueueItem, t': Tally)
    requires 1 <= row.attempts <= m && Row(row, m, Claimed, row.attempts) && 0 !in ds
    ensures Row(row', m, Claimed, m) && t' == t.(claims := t.claims + (m - row.attempts))
    ensures Leads(Busy(jobs, row, ds[0 := Owner(m, row.attempts)], t), Busy(jobs, row', ds[0 := Owner(m, m)], t'))
    decreases m - row.attempts
  {
    var w := Busy(jobs, row, ds[0 := Owner(m, row.attempts)], t);
    if row.attempts == m {
      assert Run(w, []) == w;
      row', t' := row, t;
    } else {
      var queued := Requeues(jobs, m, row, ds[0 := Owner(m, row.attempts)], t, 0);
      assert ds[0 := Owner(m, row.attempts)] - {0} == ds;
      var claimed := Claims(jobs, m, queued, ds, t);
      var t1 := t.(claims := t.claims + 1);
      var w2 := Busy(jobs, claimed, ds[0 := Owner(m, claimed.attempts)], t1);
      LeadsOn(w, Busy(jobs, queued, ds, t), w2);
      row', t' := Climbs(jobs, m, claimed, ds, t1);
      LeadsOn(w, w2, Busy(jobs, row', ds[0 := Owner(m, m)], t'));
    }
  }

  lemma OwnerCrashes(jobs: map<Id, ScheduledJob>, row: QueueItem, ds: Deliveries, t: Tally, owner: Delivery)
    requires 0 !in ds
    ensures Leads(Busy(jobs, row, ds[0 := owner], t), Busy(jobs, row, ds, t))
  {
    var w := Busy(jobs, row, ds[0 := owner], t);
    OneStep(w, Work(0, Crash));
    assert ds[0 := owner] - {0} == ds;
  }

  /** Each stale redelivery requeues on the first attempt it saw, and the item is claimed once more. */
  lemma {:induction false} StaleOnesRequeue(jobs: map<Id, ScheduledJob>, m: int, row: QueueItem, count: nat, t: Tally)
    returns (row': QueueItem, t': Tally)
    requires m >= 2 && Row(row, m, Claimed, row.attempts)
    ensures Row(row', m, Claimed, row.attempts + count) && t' == t.(claims := t.claims + count)
    ensures Leads(Busy(jobs, row, Stale(m, count), t), Busy(jobs, row', map[], t'))
    decreases count
  {
    var w := Busy(jobs, row, Stale(m, count), t);
    if count == 0 {
      assert Run(w, []) == w;
      row', t' := row, t;
    } else {
      var queued := Requeues(jobs, m, row, Stale(m, count), t, count);
      assert Stale(m, count) - {count} == Stale(m, count - 1);
      var w1 := Busy(jobs, queued, Stale(m, count - 1), t);
      var claimed := Claims(jobs, m, queued, Stale(m, count - 1), t);
      var t1 := t.(claims := t.claims + 1);
      LeadsOn(w, w1, Busy(jobs, claimed, Stale(m, count - 1)[0 := Owner(m, claimed.attempts)], t1));
      OwnerCrashes(jobs, claimed, Stale(m, count - 1), t1, Owner(m, claimed.attempts));
      var w2 := Busy(jobs, claimed, Stale(m, count - 1), t1);
      LeadsOn(w, Busy(jobs, claimed, Stale(m, count - 1)[0 := Owner(m, claimed.attempts)], t1), w2);
      row', t' := StaleOnesRequeue(jobs, m, claimed, count - 1, t1);
      LeadsOn(w, w2, Busy(jobs, row', map[], t'));
    }
  }

  lemma CancelAndRetry(jobs: map<Id, ScheduledJob>, m: int, row: QueueItem, t: Tally) returns (row': QueueItem)
    requires Row(row, m, Claimed, row.attempts)
    ensures Row(row', m, Queued, row.attempts)
    ensures Leads(Busy(jobs, row, map[], t), Busy(jobs, row', map[], t.(retries := t.retries + 1)))
  {
    var w := Busy(jobs, row, map[], t);
    var w1 := Step(w, CancelItem(0, None, 0));
    var w2 := Step(w1, RetryItem(0, None, 0));
    row' := w2.db.items[0];
    assert w2 == Busy(jobs, row', map[], t.(retries := t.retries + 1));
    OneStep(w, CancelItem(0, None, 0));
    Then(w, w1, RetryItem(0, None, 0));
  }

  /** An operator cancels and retries, and the item is claimed once more, as often as the operator likes. */
  lemma {:induction false} OperatorRetries(jobs: map<Id, ScheduledJob>, m: int, row: QueueItem, t: Tally, count: nat)
    returns (row': QueueItem, t': Tally)
    requires Row(row, m, Claimed, row.attempts)
    ensures Row(row', m, Claimed, row.attempts + count)
    ensures t' == Tally(t.claims + count, t.found, t.retries + count)
    ensures Leads(Busy(jobs, row, map[], t), Busy(jobs, row', map[], t'))
    decreases count
  {
    var w := Busy(jobs, row, map[], t);
    if count == 0 {
      assert Run(w, []) == w;
      row', t' := row, t;
    } else {
      var t1 := t.(retries := t.retries + 1);
      var queued := CancelAndRetry(jobs, m, row, t);
      var w2 := Busy(jobs, queued, map[], t1);
      var claimed := Claims(jobs, m, queued, map[], t1);
      var t2 := t1.(claims := t1.claims + 1);
      var owner := Owner(m, claimed.attempts);
      LeadsOn(w, w2, Busy(jobs, claimed, map[0 := owner], t2));
      OwnerCrashes(jobs, claimed, map[], t2, owner);
      var w3 := Busy(jobs, claimed, map[], t2);
      LeadsOn(w, Busy(jobs, claimed, map[0 := owner], t2), w3);
      row', t' := OperatorRetries(jobs, m, claimed, t2, count - 1);
      LeadsOn(w, w3, Busy(jobs, row', map[], t'));
    }
  }

  /** Enqueued, claimed and found by redeliveries. */
  lemma ClaimedAndFound(jobs: map<Id, ScheduledJob>, m: int, found: nat) returns (row: QueueItem)
    ensures Row(row, m, Claimed, 1)
    ensures Leads(Initial(jobs), Busy(jobs, row, Stale(m, found)[0 := Owner(m, 1)], Tally(1, found, 0)))
  {
    var w0 := Initial(jobs);
    var enqueue := Enqueue(0, None, "q", WORK, m, 0);
    OneStep(w0, enqueue);
    var queued := FreshItem(None, "q", WORK, m, 0);
    var w1 := Busy(jobs, queued, map[], Tally(0, 0, 0));
    assert Step(w0, enqueue) == w1;
    row := Claims(jobs, m, queued, map[], Tally(0, 0, 0));
    var w2 := Busy(jobs, row, map[0 := Owner(m, 1)], Tally(1, 0, 0));
    LeadsOn(w0, w1, w2);
    Redelivered(jobs, m, row, found);
    LeadsOn(w0, w2, Busy(jobs, row, Stale(m, found)[0 := Owner(m, 1)], Tally(1, found, 0)));
  }

  /** The redeliveries all crash. */
  lemma {:induction false} StaleOnesCrash(jobs: map<Id, ScheduledJob>, m: int, row: QueueItem, count: nat, t: Tally)
    ensures Leads(Busy(jobs, row, Stale(m, count), t), Busy(jobs, row, map[], t))
    decreases count
  {
    var w := Busy(jobs, row, Stale(m, count), t);
    if count == 0 {
      assert Run(w, []) == w;
    } else {
      assert Stale(m, count) - {count} == Stale(m, count - 1);
      OneStep(w, Work(count, Crash));
      StaleOnesCrash(jobs, m, row, count - 1, t);
      LeadsOn(w, Busy(jobs, row, Stale(m, count - 1), t), Busy(jobs, row, map[], t));
    }
  }

  /** And failed by its owner up to the cap. */
  lemma ReachesCap(jobs: map<Id, ScheduledJob>, m: int, found: nat) returns (row: QueueItem, t: Tally)
    requires m >= 2
    ensures Row(row, m, Claimed, m) && t == Tally(m, found, 0)
    ensures Leads(Initial(jobs), Busy(jobs, row, Stale(m, found), t))
  {
    var w0 := Initial(jobs);
    var row1 := ClaimedAndFound(jobs, m, found);
    var w3 := Busy(jobs, row1, Stale(m, found)[0 := Owner(m, 1)], Tally(1, found, 0));
    row, t := Climbs(jobs, m, row1, Stale(m, found), Tally(1, found, 0));
    var w4 := Busy(jobs, row, Stale(m, found)[0 := Owner(m, m)], t);
    LeadsOn(w0, w3, w4);
    OwnerCrashes(jobs, row, Stale(m, found), t, Owner(m, m));
    LeadsOn(w0, w4, Busy(jobs, row, Stale(m, found), t));
  }

  /** Without operators: below a cap of two the item is claimed once, otherwise up to its cap and once a redelivery. */
  lemma ReachesCapFound(jobs: map<Id, ScheduledJob>, m: int, found: nat) returns (row: QueueItem, t: Tally)
    ensures Row(row, m, Claimed, AttemptCap(m, found, 0)) && t == Tally(AttemptCap(m, found, 0), found, 0)
    ensures Leads(Initial(jobs), Busy(jobs, row, map[], t))
  {
    var w0 := Initial(jobs);
    if m >= 2 {
      var row1, t1 := ReachesCap(jobs, m, found);
      row, t := StaleOnesRequeue(jobs, m, row1, found, t1);
      LeadsOn(w0, Busy(jobs, row1, Stale(m, found), t1), Busy(jobs, row, map[], t));
    } else {
      row := ClaimedAndFound(jobs, m, found);
      t := Tally(1, found, 0);
      OwnerCrashes(jobs, row, Stale(m, found), t, Owner(m, 1));
      LeadsOn(w0, Busy(jobs, row, Stale(m, found)[0 := Owner(m, 1)], t), Busy(jobs, row, Stale(m, found), t));
      StaleOnesCrash(jobs, m, row, found, t);
      LeadsOn(w0, Busy(jobs, row, Stale(m, found), t), Busy(jobs, row, map[], t));
    }
  }

  /** The bound cannot be improved: for every cap, every number of redeliveries and of retries a run reaches it. */
  lemma AttemptBoundReached(jobs: map<Id, ScheduledJob>, m: int, found: nat, retries: nat)
    ensures exists es ::
      var w := Run(Initial(jobs), es);
      && 0 in w.db.items && w.tally.Keys == {0} && w.db.items[0].maxAttempts == m
      && w.tally[0].found == found && w.tally[0].retries == retries
      && w.db.items[0].attempts == AttemptCap(m, found, retries)
  {
    var w0 := Initial(jobs);
    var row2, t2 := ReachesCapFound(jobs, m, found);
    var w2 := Busy(jobs, row2, map[], t2);
    var row3, t3 := OperatorRetries(jobs, m, row2, t2, retries);
    LeadsOn(w0, w2, Busy(jobs, row3, map[], t3));
    var es :| Run(w0, es) == Busy(jobs, row3, map[], t3);
  }

  // ---------------------------------------------------------------- how an item and its run can end

  const JOBS := map[0 := ScheduledJob(None, "q", "", true, None, None)]

  /** A run leads to a ledger whose one item, linked to run 0, stands like this. */
  ghost predicate Reaches(payload: PayloadRef, state: QueueState, status: RunStatus) {
    exists w :: Leads(Initial(JOBS), w) && Stands(w.db, payload, state, status)
  }

  ghost predicate Stands(db: Db, payload: PayloadRef, state: QueueState, status: RunStatus) {
    && db.items.Keys == {0} && db.items[0].payload == payload && db.items[0].niche == None && db.items[0].state == state
    && db.runs.Keys == {0} && db.runs[0].niche == None && db.runs[0].status == status
  }

  const ITS_RUN := JobRunRef(0)
  const OVERRIDE := OverrideRef(0, 0, "{}")

  /** A delivery of item 0 in some phase, working for run 0. */
  ghost predicate At(w: World, d: Id, phase: Phase) {
    d in w.deliveries && w.deliveries[d].item == 0 && w.deliveries[d].phase == phase
  }

  lemma NewJob(override: bool) returns (w: World)
    ensures Leads(Initial(JOBS), w) && w.deliveries == map[]
    ensures w.db.items == map[0 := FreshItem(None, "q", if override then OVERRIDE else ITS_RUN, 5, 0)]
    ensures w.db.runs == map[0 := FreshRun(None, 0, 0)]
  {
    var e := EnqueueJob(0, None, 0, 0, if override then Some("{}") else None, 5, 0);
    w := Step(Initial(JOBS), e);
    OneStep(Initial(JOBS), e);
  }

  /** A new job's item is claimed by delivery `d`. */
  lemma Picked(override: bool, d: Id) returns (w: World)
    ensures
      var payload := if override then OVERRIDE else ITS_RUN;
      && Leads(Initial(JOBS), w) && Stands(w.db, payload, Claimed, Pending)
      && w.deliveries == map[d := Delivery(0, true, 1, 5, payload, Resolving)]
  {
    var w1 := NewJob(override);
    w := Step(w1, Work(d, Deliver(0)));
    Then(Initial(JOBS), w1, Work(d, Deliver(0)));
  }

  /** A claimant that knows its executor is about to start the run. */
  lemma Ready(w0: World, w: World, d: Id, payload: PayloadRef) returns (w': World)
    requires Leads(w0, w) && d in w.deliveries
    requires w.deliveries[d] == Delivery(0, true, w.deliveries[d].seen, 5, payload, Resolving)
    requires payload == OVERRIDE || (payload == ITS_RUN && 0 in w.db.runs)
    ensures Leads(w0, w') && w'.db == w.db && At(w', d, Starting(0)) && w'.deliveries.Keys == w.deliveries.Keys
    ensures forall other :: other in w.deliveries && other != d ==> w'.deliveries[other] == w.deliveries[other]
  {
    w' := Step(w, Work(d, Resolve(true)));
    Then(w0, w, Work(d, Resolve(true)));
  }

  lemma Starts(w0: World, w: World, d: Id) returns (w': World)
    requires Leads(w0, w) && At(w, d, Starting(0))
    ensures Leads(w0, w') && w'.db == StartRunDb(w.db, 0, 0) && At(w', d, Executing(Some(0)))
    ensures w'.deliveries.Keys == w.deliveries.Keys
  {
    w' := Step(w, Work(d, Start(0)));
    Then(w0, w, Work(d, Start(0)));
  }

  lemma Started(override: bool) returns (w: World)
    ensures Leads(Initial(JOBS), w) && At(w, 0, Executing(Some(0))) && w.deliveries.Keys == {0}
    ensures Stands(w.db, if override then OVERRIDE else ITS_RUN, Claimed, Running)
  {
    var w1 := Picked(override, 0);
    var w2 := Ready(Initial(JOBS), w1, 0, if override then OVERRIDE else ITS_RUN);
    w := Starts(Initial(JOBS), w2, 0);
  }

  function Verdict(good: bool): ExecResult {
    if good then Good(None) else Bad("failed", false)
  }

  function EndingFor(good: bool): Ending {
    if good then Succeed(None) else GiveUp("failed")
  }

  /** An executing delivery finishes, well or for good. */
  lemma Finishes(w0: World, w: World, d: Id, good: bool) returns (w': World)
    requires Leads(w0, w) && At(w, d, Executing(Some(0)))
    ensures Leads(w0, w') && w'.db == EndDb(w.db, 0, Some(0), EndingFor(good), 0)
    ensures w'.deliveries == w.deliveries - {d}
  {
    var w1 := Step(w, Work(d, Finish(Verdict(good), 0, 0)));
    assert At(w1, d, Writing(Some(0), EndingFor(good))) && w1.deliveries - {d} == w.deliveries - {d} && w1.db == w.db;
    w' := Step(w1, Work(d, Write(0)));
    Then(w0, w, Work(d, Finish(Verdict(good), 0, 0)));
    Then(w0, w1, Work(d, Write(0)));
  }

  // -- ended alike

  lemma EndAlike(good: bool)
    ensures Reaches(ITS_RUN, if good then Done else Failed, if good then Success else RunFailed)
  {
    var w1 := Started(false);
    var w2 := Finishes(Initial(JOBS), w1, 0, good);
    assert Stands(w2.db, ITS_RUN, if good then Done else Failed, if good then Success else RunFailed);
  }

  lemma CancelledTogether()
    ensures Reaches(ITS_RUN, Failed, Cancelled)
  {
    var w1 := NewJob(false);
    var w2 := Step(w1, CancelItem(0, None, 0));
    Then(Initial(JOBS), w1, CancelItem(0, None, 0));
    assert Stands(w2.db, ITS_RUN, Failed, Cancelled);
  }

  // -- with one delivery at a time

  /** A crash between claim and start: the redelivery finishes the item, and the run stays pending. */
  lemma CrashLeavesRunPending()
    ensures Reaches(ITS_RUN, Done, Pending)
  {
    var w2 := Recovered();
    var w3 := Finishes(Initial(JOBS), w2, 1, true);
    assert Stands(w3.db, ITS_RUN, Done, Pending);
  }

  /** A worker crashes right after claiming, and the item is delivered again. */
  lemma Recovered() returns (w: World)
    ensures Leads(Initial(JOBS), w) && Stands(w.db, ITS_RUN, Claimed, Pending) && At(w, 1, Executing(Some(0)))
  {
    var w1 := Picked(false, 0);
    var w2 := Step(w1, Work(0, Crash));
    Then(Initial(JOBS), w1, Work(0, Crash));
    assert w2.db == w1.db && w2.deliveries == map[];
    w := Redelivery(Initial(JOBS), w2, 1);
  }

  /** A redelivery of the claimed item skips the start and executes. */
  lemma Redelivery(w0: World, w: World, d: Id) returns (w': World)
    requires Leads(w0, w) && Stands(w.db, ITS_RUN, Claimed, Pending) && d !in w.deliveries
    ensures Leads(w0, w') && w'.db == w.db && At(w', d, Executing(Some(0)))
    ensures w'.deliveries.Keys == w.deliveries.Keys + {d}
    ensures forall other :: other in w.deliveries ==> w'.deliveries[other] == w.deliveries[other]
  {
    var w1 := Step(w, Work(d, Deliver(0)));
    Then(w0, w, Work(d, Deliver(0)));
    var seen := w.db.items[0].attempts;
    assert w1.db == w.db;
    assert w1.deliveries == w.deliveries[d := Delivery(0, false, seen, w.db.items[0].maxAttempts, ITS_RUN, Resolving)];
    w' := Step(w1, Work(d, Resolve(true)));
    Then(w0, w1, Work(d, Resolve(true)));
  }

  /** An unknown executor fails the item before the run was ever started. */
  lemma UnknownExecutorLeavesRunPending()
    ensures Reaches(ITS_RUN, Failed, Pending)
  {
    var w1 := Picked(false, 0);
    var w2 := Step(w1, Work(0, Resolve(false)));
    Then(Initial(JOBS), w1, Work(0, Resolve(false)));
    assert At(w2, 0, Writing(Some(0), GiveUp("unknown executor"))) && w2.db == w1.db;
    var w3 := Step(w2, Work(0, Write(0)));
    Then(Initial(JOBS), w2, Work(0, Write(0)));
    assert w3.db == EndDb(w1.db, 0, Some(0), GiveUp("unknown executor"), 0);
    assert Stands(w3.db, ITS_RUN, Failed, Pending);
  }

  /** Cancelling a run leaves its item to finish. */
  lemma CancelledRunWithDoneItem()
    ensures Reaches(ITS_RUN, Done, Cancelled)
  {
    var w1 := Started(false);
    var w2 := Step(w1, CancelRun(0, None, 0));
    Then(Initial(JOBS), w1, CancelRun(0, None, 0));
    var w3 := Finishes(Initial(JOBS), w2, 0, true);
    assert Stands(w3.db, ITS_RUN, Done, Cancelled);
  }

  /** A job fails for good and its item is retried: the item is done in the end, and the run stays failed. */
  lemma RetriedItemOfFailedRun()
    ensures Reaches(ITS_RUN, Done, RunFailed)
  {
    var w1 := Started(false);
    var w2 := Finishes(Initial(JOBS), w1, 0, false);
    assert Stands(w2.db, ITS_RUN, Failed, RunFailed);
    var w3 := PickedAgain(w2, 1);
    var w4 := Starts(Initial(JOBS), w3, 1);
    assert w4.db.items == w3.db.items && w4.db.runs == w3.db.runs;
    var w5 := Finishes(Initial(JOBS), w4, 1, true);
    assert Stands(w5.db, ITS_RUN, Done, RunFailed);
  }

  /** The operator retries a failed item, and delivery `d` claims it and is about to start its run. */
  lemma PickedAgain(w: World, d: Id) returns (w': World)
    requires Leads(Initial(JOBS), w) && Stands(w.db, ITS_RUN, Failed, RunFailed) && d !in w.deliveries
    ensures Leads(Initial(JOBS), w') && Stands(w'.db, ITS_RUN, Claimed, RunFailed) && At(w', d, Starting(0))
  {
    var w1 := Step(w, RetryItem(0, None, 0));
    Then(Initial(JOBS), w, RetryItem(0, None, 0));
    assert Stands(w1.db, ITS_RUN, Queued, RunFailed) && w1.deliveries == w.deliveries;
    var w2 := Step(w1, Work(d, Deliver(0)));
    Then(Initial(JOBS), w1, Work(d, Deliver(0)));
    assert Stands(w2.db, ITS_RUN, Claimed, RunFailed);
    w' := Step(w2, Work(d, Resolve(true)));
    Then(Initial(JOBS), w2, Work(d, Resolve(true)));
  }

  // -- with overlapping deliveries

  /** The claimant is about to start the run, and a redelivery has overtaken it and finished. */
  lemma Overtaken(good: bool) returns (w: World)
    ensures Leads(Initial(JOBS), w) && Stands(w.db, ITS_RUN, if good then Done else Failed, Pending)
    ensures At(w, 1, Starting(0))
  {
    var w1 := Picked(false, 1);
    var w2 := Ready(Initial(JOBS), w1, 1, ITS_RUN);
    var w3 := Redelivery(Initial(JOBS), w2, 0);
    assert At(w3, 1, Starting(0));
    w := Finishes(Initial(JOBS), w3, 0, good);
    assert w.deliveries[1] == w3.deliveries[1];
  }

  /** Two overlapping deliveries: the redelivery ends the item before the claimant starts the run. */
  lemma OverlapLeavesRunRunning(good: bool) returns (w: World)
    ensures Reaches(ITS_RUN, if good then Done else Failed, Running)
    ensures Leads(Initial(JOBS), w) && Stands(w.db, ITS_RUN, if good then Done else Failed, Running)
    ensures At(w, 1, Executing(Some(0)))
  {
    var w1 := Overtaken(good);
    w := Starts(Initial(JOBS), w1, 1);
  }

  /** The redelivery fails the item for good, and the claimant's run still succeeds. */
  lemma OverlapLetsRunSucceed()
    ensures Reaches(ITS_RUN, Failed, Success)
  {
    var w1 := OverlapLeavesRunRunning(false);
    var w2 := Finishes(Initial(JOBS), w1, 1, true);
    assert Stands(w2.db, ITS_RUN, Failed, Success);
  }

  /** An ended item can stand beside its run in any status: every pair is reached, the seven that disagree included. */
  lemma EveryPairIsReached(state: QueueState, status: RunStatus)
    requires TerminalItem(state)
    ensures Reaches(ITS_RUN, state, status)
  {
    match status
    case Pending => if state == Done { CrashLeavesRunPending(); } else { UnknownExecutorLeavesRunPending(); }
    case Running => var w := OverlapLeavesRunRunning(state == Done);
    case Success => if state == Done { EndAlike(true); } else { OverlapLetsRunSucceed(); }
    case RunFailed => if state == Done { RetriedItemOfFailedRun(); } else { EndAlike(false); }
    case Cancelled => if state == Done { CancelledRunWithDoneItem(); } else { CancelledTogether(); }
  }

  /** Cancelling an override item does not reach its run, which can then still succeed. */
  lemma OverrideRunSucceedsAfterCancel()
    ensures Reaches(OVERRIDE, Failed, Success)
  {
    var w1 := Started(true);
    var w2 := Step(w1, CancelItem(0, None, 0));
    Then(Initial(JOBS), w1, CancelItem(0, None, 0));
    assert Stands(w2.db, OVERRIDE, Failed, Running);
    var w3 := Finishes(Initial(JOBS), w2, 0, true);
    assert Stands(w3.db, OVERRIDE, Failed, Success);
  }
}
