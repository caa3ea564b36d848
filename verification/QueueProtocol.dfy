/**
 Deliveries of queue items as a transition system. A delivery runs as several transactions; between
 them anything else may happen: crashes, redeliveries, operators, the admin service, new work.
 */
module QueueProtocol {
  import opened Prelude
  import opened QueueLedger

  /** Where a delivery stands between two of its transactions. */
  datatype Phase =
    | Resolving
    | Starting(start: Id)
    | Executing(run: Option<Id>)
    | Writing(run: Option<Id>, ending: Ending)

  /** A worker in flight: the item, what the claim returned, and where it stands. */
  datatype Delivery = Delivery(item: Id, newly: bool, seen: nat, limit: int, payload: PayloadRef, phase: Phase)

  /** What has been observed about an item: its claims, its redeliveries, its operator retries. */
  datatype Tally = Tally(claims: nat, found: nat, retries: nat)

  datatype World = World(db: Db, deliveries: map<Id, Delivery>, tally: map<Id, Tally>)

  datatype ExecResult = Good(output: Option<string>) | Bad(error: string, retryable: bool)

  /** What one delivery does next; a crash is a delivery that never takes another step. */
  datatype WorkerStep =
    | Deliver(item: Id)
    | Resolve(known: bool)
    | Start(at: int)
    | Finish(result: ExecResult, delay: nat, at: int)
    | Write(at: int)
    | Crash

  datatype Event =
    | Work(delivery: Id, step: WorkerStep)
    // operators
    | CancelItem(item: Id, niche: Option<Id>, now: int)
    | RetryItem(item: Id, niche: Option<Id>, now: int)
    | CancelRun(run: Id, niche: Option<Id>, now: int)
    | RetryRun(run: Id, niche: Option<Id>, newRun: Id, newItem: Id, maxAttempts: int, now: int)
    // new work
    | Enqueue(newItem: Id, niche: Option<Id>, queue: string, payload: PayloadRef, maxAttempts: int, now: int)
    | EnqueueJob(job: Id, niche: Option<Id>, newRun: Id, newItem: Id, override: Option<string>, maxAttempts: int, now: int)
    // the admin service
    | AdminClaim(item: Id)
    | AdminComplete(item: Id, now: int)
    | AdminFail(item: Id, error: string, now: int)
    | AdminRetry(item: Id, bound: int, now: int)

  /** No work yet; the job definitions are whatever they are. */
  function Initial(jobs: map<Id, ScheduledJob>): World {
    World(Db(jobs, map[], map[]), map[], map[])
  }

  // ---------------------------------------------------------------- steps

  /** The run a delivery works for: a `job_run:` reference counts only if the run exists. */
  function ResolvedRun(db: Db, payload: PayloadRef): Option<Id> {
    match payload
    case JobRunRef(r) => if r in db.runs then Some(r) else None
    case OverrideRef(r, _, _) => Some(r)
    case BusinessRef(_) => None
  }

  /** After resolving: an unknown executor gives up, a new claim starts the run, the rest executes. */
  function AfterResolve(db: Db, d: Delivery, known: bool): Phase {
    var run := ResolvedRun(db, d.payload);
    if !known then Writing(run, GiveUp("unknown executor"))
    else if d.newly && run.Some? then Starting(run.value)
    else Executing(run)
  }

  /** A failed execution is requeued on the attempts the delivery saw when it claimed. */
  function AfterExecute(d: Delivery, run: Option<Id>, result: ExecResult, delay: nat, now: int): Phase {
    match result
    case Good(output) => Writing(run, Succeed(output))
    case Bad(error, retryable) =>
      var next := NextRetryAt(d.seen, d.limit, delay, now);
      if retryable && next.Some? then Writing(run, Requeue(next.value, error)) else Writing(run, GiveUp(error))
  }

  function Progress(w: World, id: Id, phase: Phase): World
    requires id in w.deliveries
  {
    w.(deliveries := w.deliveries[id := w.deliveries[id].(phase := phase)])
  }

  function CountTally(w: World, item: Id, claims: nat, found: nat, retries: nat): map<Id, Tally> {
    if item !in w.tally then w.tally
    else
      var t := w.tally[item];
      w.tally[item := Tally(t.claims + claims, t.found + found, t.retries + retries)]
  }

  function StepDelivery(w: World, d: Id, step: WorkerStep): World {
    if step.Deliver? then
      if d in w.deliveries then w
      else (
        match ClaimAnswer(w.db, step.item)
        case NoClaim => w
        case GotClaim(newly, seen, limit, payload) =>
          World(ClaimDb(w.db, step.item),
                w.deliveries[d := Delivery(step.item, newly, seen, limit, payload, Resolving)],
                CountTally(w, step.item, if newly then 1 else 0, if newly then 0 else 1, 0)))
    else if d !in w.deliveries then w
    else
      var job := w.deliveries[d];
      match step
      case Resolve(known) =>
        if job.phase.Resolving? then Progress(w, d, AfterResolve(w.db, job, known)) else w
      case Start(at) =>
        if job.phase.Starting?
        then Progress(w.(db := StartRunDb(w.db, job.phase.start, at)), d, Executing(Some(job.phase.start))) else w
      case Finish(result, delay, at) =>
        if job.phase.Executing? then Progress(w, d, AfterExecute(job, job.phase.run, result, delay, at)) else w
      case Write(at) =>
        if job.phase.Writing?
        then World(EndDb(w.db, job.item, job.phase.run, job.phase.ending, at), w.deliveries - {d}, w.tally) else w
      case Crash => w.(deliveries := w.deliveries - {d})
  }

  function Watch(w: World, db: Db, item: Id): World {
    World(db, w.deliveries, if item in w.tally then w.tally else w.tally[item := Tally(0, 0, 0)])
  }

  /** One transaction of anybody. A step whose guard fails changes nothing. */
  function Step(w: World, e: Event): World {
    match e
    case Work(d, step) => StepDelivery(w, d, step)
    case CancelItem(item, niche, now) => w.(db := CancelItemDb(w.db, item, niche, now).0)
    case RetryItem(item, niche, now) =>
      var (db, outcome) := RetryItemDb(w.db, item, niche, now);
      if outcome == Ok then World(db, w.deliveries, CountTally(w, item, 0, 0, 1)) else w
    case CancelRun(run, niche, now) => w.(db := CancelRunDb(w.db, run, niche, now).0)
    case RetryRun(run, niche, newRun, newItem, maxAttempts, now) =>
      if newRun in w.db.runs || newItem in w.db.items then w
      else
        var (db, outcome) := RetryRunDb(w.db, run, niche, newRun, newItem, maxAttempts, now);
        if outcome == Ok then Watch(w, db, newItem) else w
    case Enqueue(newItem, niche, queue, payload, maxAttempts, now) =>
      if newItem in w.db.items || HasOpenItem(w.db, niche, queue, payload) then w
      else Watch(w, EnqueueDb(w.db, newItem, niche, queue, payload, maxAttempts, now), newItem)
    case EnqueueJob(job, niche, newRun, newItem, override, maxAttempts, now) =>
      if newRun in w.db.runs || newItem in w.db.items then w
      else
        var (db, outcome) := EnqueueJobDb(w.db, job, niche, newRun, newItem, override, maxAttempts, now, now);
        if outcome == Ok then Watch(w, db, newItem) else w
    case AdminClaim(item) =>
      if item in w.db.items && w.db.items[item].state == Queued
      then World(ClaimDb(w.db, item), w.deliveries, CountTally(w, item, 1, 0, 0)) else w
    case AdminComplete(item, now) => w.(db := AdminCompleteDb(w.db, item, now))
    case AdminFail(item, error, now) => w.(db := AdminFailDb(w.db, item, error, now))
    case AdminRetry(item, bound, now) =>
      var (db, done) := AdminRetryDb(w.db, item, bound, now);
      if done then World(db, w.deliveries, CountTally(w, item, 0, 0, 1)) else w
  }

  function Run(w: World, es: seq<Event>): World
    decreases |es|
  {
    if es == [] then w else Run(Step(w, es[0]), es[1..])
  }

  lemma {:induction false} RunAppend(w: World, a: seq<Event>, b: seq<Event>)
    ensures Run(w, a + b) == Run(Run(w, a), b)
    decreases |a|
  {
    if a == [] {
      assert a + b == b;
    } else {
      assert (a + b)[0] == a[0] && (a + b)[1..] == a[1..] + b;
      RunAppend(Step(w, a[0]), a[1..], b);
    }
  }
}
