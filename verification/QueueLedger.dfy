/**
 The durable automation ledger: scheduled jobs, job runs and queue items, and the transactions that
 write them. Every transaction is a function on the tables, and the store class at the end of the
 module carries it out field by field.
 */
module QueueLedger {
  import opened Prelude

  type Id = nat

  /**
   What a queue item refers to: a run by name, a run with an override configuration, or something else. The last two
   keep their text, so that references are the same work only if they are written alike.
   */
  datatype PayloadRef =
    | JobRunRef(run: Id)
    | OverrideRef(run: Id, job: Id, config: string)
    | BusinessRef(text: string)

  datatype QueueState = Queued | Claimed | Done | Failed

  datatype QueueItem = QueueItem(
    niche: Option<Id>,
    queue: string,
    payload: PayloadRef,
    state: QueueState,
    attempts: nat,
    maxAttempts: int,
    runAt: int,
    completedAt: Option<int>,
    error: Option<string>)

  datatype RunStatus = Pending | Running | Success | RunFailed | Cancelled

  datatype JobRun = JobRun(
    niche: Option<Id>,
    job: Id,
    runAt: int,
    status: RunStatus,
    attempts: nat,
    startedAt: Option<int>,
    finishedAt: Option<int>,
    outputRef: Option<string>,
    error: Option<string>)

  datatype ScheduledJob = ScheduledJob(
    niche: Option<Id>,
    queue: string,
    cron: string,
    enabled: bool,
    nextRunAt: Option<int>,
    lastRunAt: Option<int>)

  datatype Db = Db(jobs: map<Id, ScheduledJob>, runs: map<Id, JobRun>, items: map<Id, QueueItem>)

  datatype Outcome = Ok | NotFound | Invalid

  predicate TerminalItem(state: QueueState) {
    state == Done || state == Failed
  }

  predicate TerminalRun(status: RunStatus) {
    status == Success || status == RunFailed || status == Cancelled
  }

  /** The run a payload is linked to, whether or not that run exists. */
  function LinkedRun(payload: PayloadRef): Option<Id> {
    match payload
    case JobRunRef(r) => Some(r)
    case OverrideRef(r, _, _) => Some(r)
    case BusinessRef(_) => None
  }

  // ---------------------------------------------------------------- retry policy

  /** The retry settings, in seconds: the first delay, the longest one, and how far a draw may stray. */
  datatype Backoff = Backoff(base: real, longest: real, jitter: real)

  function Pow2(n: nat): (p: real)
    ensures p >= 1.0
  {
    if n == 0 then 1.0 else 2.0 * Pow2(n - 1)
  }

  function LesserOf(a: real, b: real): real {
    if a <= b then a else b
  }

  /** The delay before jitter. */
  function PlainDelay(b: Backoff, attempts: nat): real {
    LesserOf(b.base * Pow2(Max(0, attempts - 1)), b.longest)
  }

  /** A draw of at most `jitter` either way, in proportion, and never below zero. */
  function Jittered(plain: real, jitter: real, draw: real): real {
    NotBelowZero(plain * (1.0 + draw), jitter > 0.0)
  }

  function NotBelowZero(delay: real, jittered: bool): real {
    if jittered && delay < 0.0 then 0.0 else delay
  }

  lemma PlainInRange(b: Backoff, attempts: nat)
    requires b.base >= 0.0 && b.longest >= 0.0
    ensures 0.0 <= PlainDelay(b, attempts) <= b.longest
  {
    ScaledUp(0.0, b.base, Pow2(Max(0, attempts - 1)));
  }

  lemma Scaled(x: real, lo: real, hi: real)
    requires x >= 0.0 && lo <= hi
    ensures x * lo <= x * hi
  {
  }

  lemma ScaledUp(x: real, y: real, k: real)
    requires 0.0 <= x <= y && k >= 0.0
    ensures 0.0 <= x * k <= y * k
  {
  }

  lemma JitterInRange(plain: real, longest: real, jitter: real, draw: real)
    requires 0.0 <= plain <= longest && -jitter <= draw <= jitter
    ensures 0.0 <= Jittered(plain, jitter, draw) <= longest * (1.0 + jitter)
    ensures plain * (1.0 - jitter) <= Jittered(plain, jitter, draw) <= plain * (1.0 + jitter)
  {
    FactorInRange(plain, longest, 1.0 - jitter, 1.0 + draw, 1.0 + jitter, jitter > 0.0);
  }

  lemma FactorInRange(plain: real, longest: real, lo: real, f: real, hi: real, jittered: bool)
    requires 0.0 <= plain <= longest && lo <= f <= hi && 0.0 <= hi && (!jittered ==> f >= 0.0)
    ensures plain * lo <= NotBelowZero(plain * f, jittered) <= plain * hi
    ensures 0.0 <= NotBelowZero(plain * f, jittered) <= longest * hi
  {
    Scaled(plain, lo, f);
    Scaled(plain, f, hi);
    ProductSign(plain, hi);
    ScaledUp(plain, longest, hi);
    if f >= 0.0 { ProductSign(plain, f); }
  }

  lemma ProductSign(x: real, y: real)
    requires x >= 0.0 && y >= 0.0
    ensures x * y >= 0.0
  {
  }

  /** The delay a retry waits: close to the plain one, and never more than the longest plus its jitter. */
  function RetryDelay(b: Backoff, attempts: nat, draw: real): (delay: real)
    requires b.base >= 0.0 && b.longest >= 0.0 && -b.jitter <= draw <= b.jitter
    ensures 0.0 <= delay <= b.longest * (1.0 + b.jitter)
    ensures PlainDelay(b, attempts) * (1.0 - b.jitter) <= delay <= PlainDelay(b, attempts) * (1.0 + b.jitter)
  {
    PlainInRange(b, attempts);
    JitterInRange(PlainDelay(b, attempts), b.longest, b.jitter, draw);
    Jittered(PlainDelay(b, attempts), b.jitter, draw)
  }

  /** The delay starts at the base and doubles with every attempt until it meets the longest one. */
  lemma DelayDoubles(b: Backoff, attempts: nat)
    requires b.base >= 0.0 && b.longest >= 0.0
    ensures PlainDelay(b, 0) == PlainDelay(b, 1) == LesserOf(b.base, b.longest)
    ensures attempts >= 1 ==>
              PlainDelay(b, attempts + 1) == LesserOf(2.0 * PlainDelay(b, attempts), b.longest)
  {
    if attempts >= 1 {
      var plain := b.base * Pow2(attempts - 1);
      assert Pow2(attempts) == 2.0 * Pow2(attempts - 1);
      assert b.base * Pow2(attempts) == 2.0 * plain;
    }
  }

  /** The delay is the plain one and the drawn part of it, and none when more than all of it is drawn away. */
  lemma DelayFollowsDraw(b: Backoff, attempts: nat, draw: real)
    requires b.base >= 0.0 && b.longest >= 0.0 && -b.jitter <= draw <= b.jitter
    ensures RetryDelay(b, attempts, draw) ==
            if draw >= -1.0 then PlainDelay(b, attempts) + PlainDelay(b, attempts) * draw else 0.0
  {
    var plain := PlainDelay(b, attempts);
    PlainInRange(b, attempts);
    assert plain * (1.0 + draw) == plain + plain * draw;
    if draw >= -1.0 { ProductSign(plain, 1.0 + draw); } else { ProductSign(plain, -1.0 - draw); }
  }

  /** The time of the next attempt, while attempts remain. Here the delay is whatever the draw made of it. */
  function NextRetryAt(attempts: nat, maxAttempts: int, delay: nat, now: int): (next: Option<int>)
    ensures next.Some? <==> 0 < maxAttempts && attempts < maxAttempts
    ensures next.Some? ==> next.value == now + delay
  {
    if maxAttempts <= 0 || attempts >= maxAttempts then None else Some(now + delay)
  }

  // ---------------------------------------------------------------- workflow transactions

  datatype Claim = NoClaim | GotClaim(newly: bool, seen: nat, limit: int, payload: PayloadRef)

  /** What a delivery is told when it tries to claim an item. */
  function ClaimAnswer(db: Db, item: Id): Claim {
    if item !in db.items || TerminalItem(db.items[item].state) then NoClaim
    else
      var row := db.items[item];
      if row.state == Queued then GotClaim(true, row.attempts + 1, row.maxAttempts, row.payload)
      else GotClaim(false, row.attempts, row.maxAttempts, row.payload)
  }

  /** Claiming moves a queued item to claimed and counts the attempt; it leaves anything else alone. */
  function ClaimDb(db: Db, item: Id): Db {
    if item in db.items && db.items[item].state == Queued
    then db.(items := db.items[item := db.items[item].(state := Claimed, attempts := db.items[item].attempts + 1)])
    else db
  }

  /** Only a pending run starts. */
  function StartRunDb(db: Db, run: Id, now: int): Db {
    if run in db.runs && db.runs[run].status == Pending
    then db.(runs := db.runs[run := db.runs[run].(status := Running, startedAt := Some(now),
                                                  attempts := db.runs[run].attempts + 1)])
    else db
  }

  /** How an execution ends: the item and the run are written under separate guards. */
  datatype Ending =
    | Succeed(output: Option<string>)
    | Requeue(next: int, problem: string)
    | GiveUp(reason: string)

  function EndItem(row: QueueItem, ending: Ending, now: int): QueueItem {
    if row.state != Claimed then row
    else
      match ending
      case Succeed(_) => row.(state := Done, completedAt := Some(now), error := None)
      case Requeue(next, problem) => row.(state := Queued, runAt := next, error := Some(problem))
      case GiveUp(reason) => row.(state := Failed, completedAt := Some(now), error := Some(reason))
  }

  function EndRun(row: JobRun, ending: Ending, now: int): JobRun {
    if row.status != Running then row
    else
      match ending
      case Succeed(output) => row.(status := Success, finishedAt := Some(now), outputRef := output)
      case Requeue(_, problem) => row.(status := Pending, startedAt := None, error := Some(problem))
      case GiveUp(reason) => row.(status := RunFailed, finishedAt := Some(now), error := Some(reason))
  }

  function EndDb(db: Db, item: Id, run: Option<Id>, ending: Ending, now: int): Db {
    Db(db.jobs,
       if run.Some? && run.value in db.runs
       then db.runs[run.value := EndRun(db.runs[run.value], ending, now)] else db.runs,
       if item in db.items then db.items[item := EndItem(db.items[item], ending, now)] else db.items)
  }

  // ---------------------------------------------------------------- operator transactions

  function CancelRunDb(db: Db, run: Id, niche: Option<Id>, now: int): (Db, Outcome) {
    if run !in db.runs || db.runs[run].niche != niche then (db, NotFound)
    else if TerminalRun(db.runs[run].status) then (db, Invalid)
    else (db.(runs := db.runs[run := db.runs[run].(status := Cancelled, finishedAt := Some(now))]), Ok)
  }

  /** Cancelling an item also cancels the run a `job_run:` reference names, but not an override's run. */
  function CancelItemDb(db: Db, item: Id, niche: Option<Id>, now: int): (Db, Outcome) {
    if item !in db.items || db.items[item].niche != niche then (db, NotFound)
    else if TerminalItem(db.items[item].state) then (db, Invalid)
    else
      var row := db.items[item];
      var items := db.items[item := row.(state := Failed, completedAt := Some(now),
                                         error := Some("cancelled by operator"))];
      var runs :=
        if row.payload.JobRunRef? && row.payload.run in db.runs && !TerminalRun(db.runs[row.payload.run].status)
        then db.runs[row.payload.run := db.runs[row.payload.run].(status := Cancelled, finishedAt := Some(now))]
        else db.runs;
      (Db(db.jobs, runs, items), Ok)
  }

  function RetryItemDb(db: Db, item: Id, niche: Option<Id>, now: int): (Db, Outcome) {
    if item !in db.items || db.items[item].niche != niche then (db, NotFound)
    else if db.items[item].state != Failed then (db, Invalid)
    else (db.(items := db.items[item := db.items[item].(state := Queued, runAt := now, completedAt := None,
                                                        error := None)]), Ok)
  }

  // ---------------------------------------------------------------- enqueueing

  function FreshItem(niche: Option<Id>, queue: string, payload: PayloadRef, maxAttempts: int, runAt: int): QueueItem {
    QueueItem(niche, queue, payload, Queued, 0, maxAttempts, runAt, None, None)
  }

  function FreshRun(niche: Option<Id>, job: Id, runAt: int): JobRun {
    JobRun(niche, job, runAt, Pending, 0, None, None, None, None)
  }

  predicate SameWork(row: QueueItem, niche: Option<Id>, queue: string, payload: PayloadRef) {
    row.niche == niche && row.queue == queue && row.payload == payload && (row.state == Queued || row.state == Claimed)
  }

  predicate HasOpenItem(db: Db, niche: Option<Id>, queue: string, payload: PayloadRef) {
    exists i :: i in db.items && SameWork(db.items[i], niche, queue, payload)
  }

  /** Enqueueing by payload reuses an open item and otherwise appends a queued one. */
  function EnqueueDb(db: Db, item: Id, niche: Option<Id>, queue: string, payload: PayloadRef,
                     maxAttempts: int, runAt: int): Db
  {
    if HasOpenItem(db, niche, queue, payload) then db
    else db.(items := db.items[item := FreshItem(niche, queue, payload, maxAttempts, runAt)])
  }

  predicate IsSpace(c: char) {
    || '\t' <= c <= '\r' || '\U{1C}' <= c <= ' ' || c == '\U{85}' || c == '\U{A0}' || c == '\U{1680}'
    || '\U{2000}' <= c <= '\U{200A}' || c == '\U{2028}' || c == '\U{2029}' || c == '\U{202F}' || c == '\U{205F}'
    || c == '\U{3000}'
  }

  predicate Blank(s: string) {
    forall k :: 0 <= k < |s| ==> IsSpace(s[k])
  }

  /** Enqueueing a job appends a pending run and a queued item that refers to it, in one transaction. */
  function EnqueueJobDb(db: Db, job: Id, niche: Option<Id>, run: Id, item: Id, override: Option<string>,
                        maxAttempts: int, runAt: int, now: int): (Db, Outcome)
  {
    if job !in db.jobs || db.jobs[job].niche != niche then (db, NotFound)
    else if !db.jobs[job].enabled then (db, Invalid)
    else
      var payload := if override.Some? then OverrideRef(run, job, override.value) else JobRunRef(run);
      (Db(db.jobs[job := db.jobs[job].(lastRunAt := Some(now))],
          db.runs[run := FreshRun(niche, job, runAt)],
          db.items[item := FreshItem(niche, db.jobs[job].queue, payload, maxAttempts, runAt)]), Ok)
  }

  function AdvanceJobDb(db: Db, job: Id, niche: Option<Id>, next: int): (Db, Outcome) {
    if job !in db.jobs || db.jobs[job].niche != niche then (db, NotFound)
    else (db.(jobs := db.jobs[job := db.jobs[job].(nextRunAt := Some(next))]), Ok)
  }

  /** What the check before a retry answers: the job of an ended, unsuccessful run. */
  function RetryAnswer(db: Db, run: Id, niche: Option<Id>): (Outcome, Id) {
    if run !in db.runs || db.runs[run].niche != niche then (NotFound, 0)
    else if db.runs[run].status != RunFailed && db.runs[run].status != Cancelled then (Invalid, 0)
    else (Ok, db.runs[run].job)
  }

  /** Retrying a finished run leaves it as it is and enqueues its job again. */
  function RetryRunDb(db: Db, run: Id, niche: Option<Id>, newRun: Id, item: Id, maxAttempts: int, now: int): (Db, Outcome) {
    var (checked, job) := RetryAnswer(db, run, niche);
    if checked != Ok then (db, checked)
    else EnqueueJobDb(db, job, niche, newRun, item, None, maxAttempts, now, now)
  }

  // ---------------------------------------------------------------- the admin service's writer

  function AdminCompleteDb(db: Db, item: Id, now: int): Db {
    if item in db.items && db.items[item].state == Claimed
    then db.(items := db.items[item := db.items[item].(state := Done, completedAt := Some(now), error := None)])
    else db
  }

  function AdminFailDb(db: Db, item: Id, error: string, now: int): Db {
    if item in db.items && db.items[item].state == Claimed
    then db.(items := db.items[item := db.items[item].(state := Failed, completedAt := Some(now),
                                                       error := Some(if |error| <= 500 then error else error[..500]))])
    else db
  }

  function AdminRetryDb(db: Db, item: Id, bound: int, now: int): (Db, bool) {
    if item in db.items && db.items[item].state == Failed && db.items[item].attempts < bound
    then (db.(items := db.items[item := db.items[item].(state := Queued, error := None, completedAt := None,
                                                        runAt := now)]), true)
    else (db, false)
  }

  // ---------------------------------------------------------------- the store

  /** The tables as the service holds them. Each method is one database transaction. */
  class AutomationStore {
    var jobs: map<Id, ScheduledJob>
    var runs: map<Id, JobRun>
    var items: map<Id, QueueItem>

    ghost function Tables(): Db
      reads this
    {
      Db(jobs, runs, items)
    }

    method ClaimItem(id: Id) returns (answer: Claim)
      modifies this`items
      ensures answer == ClaimAnswer(old(Tables()), id)
      ensures Tables() == ClaimDb(old(Tables()), id)
    {
      if id !in items { return NoClaim; }
      var row := items[id];
      if row.state == Done || row.state == Failed { return NoClaim; }
      if row.state == Queued {
        row := row.(state := Claimed);
        row := row.(attempts := row.attempts + 1);
        items := items[id := row];
        return GotClaim(true, row.attempts, row.maxAttempts, row.payload);
      }
      return GotClaim(false, row.attempts, row.maxAttempts, row.payload);
    }

    method StartRun(run: Id, now: int)
      modifies this`runs
      ensures Tables() == StartRunDb(old(Tables()), run, now)
    {
      if run !in runs { return; }
      var row := runs[run];
      if row.status == Pending {
        row := row.(status := Running);
        row := row.(startedAt := Some(now));
        row := row.(attempts := row.attempts + 1);
        runs := runs[run := row];
      }
    }

    method Complete(item: Id, run: Option<Id>, output: Option<string>, now: int)
      modifies this`items, this`runs
      ensures Tables() == EndDb(old(Tables()), item, run, Succeed(output), now)
      ensures items == if item in old(items) && old(items)[item].state == Claimed
                       then old(items)[item :=
                              old(items)[item].(state := Done, completedAt := Some(now), error := None)]
                       else old(items)
      ensures runs == if run.Some? && run.value in old(runs) && old(runs)[run.value].status == Running
                      then old(runs)[run.value :=
                             old(runs)[run.value].(status := Success, finishedAt := Some(now), outputRef := output)]
                      else old(runs)
    {
      if item in items && items[item].state == Claimed {
        var current := items[item].(state := Done);
        current := current.(completedAt := Some(now));
        items := items[item := current.(error := None)];
      }
      if run.Some? && run.value in runs && runs[run.value].status == Running {
        var row := runs[run.value].(status := Success);
        row := row.(finishedAt := Some(now));
        runs := runs[run.value := row.(outputRef := output)];
      }
    }

    method RequeueFailure(item: Id, run: Option<Id>, problem: string, next: int, now: int)
      modifies this`items, this`runs
      ensures Tables() == EndDb(old(Tables()), item, run, Requeue(next, problem), now)
      ensures items == if item in old(items) && old(items)[item].state == Claimed
                       then old(items)[item :=
                              old(items)[item].(state := Queued, runAt := next, error := Some(problem))]
                       else old(items)
      ensures runs == if run.Some? && run.value in old(runs) && old(runs)[run.value].status == Running
                      then old(runs)[run.value :=
                             old(runs)[run.value].(status := Pending, startedAt := None, error := Some(problem))]
                      else old(runs)
    {
      if item in items && items[item].state == Claimed {
        var current := items[item].(state := Queued);
        current := current.(runAt := next);
        items := items[item := current.(error := Some(problem))];
      }
      if run.Some? && run.value in runs && runs[run.value].status == Running {
        var row := runs[run.value].(status := Pending);
        row := row.(startedAt := None);
        runs := runs[run.value := row.(error := Some(problem))];
      }
    }

    method TerminalFailure(item: Id, run: Option<Id>, reason: string, now: int)
      modifies this`items, this`runs
      ensures Tables() == EndDb(old(Tables()), item, run, GiveUp(reason), now)
      ensures items == if item in old(items) && old(items)[item].state == Claimed
                       then old(items)[item :=
                              old(items)[item].(state := Failed, completedAt := Some(now), error := Some(reason))]
                       else old(items)
      ensures runs == if run.Some? && run.value in old(runs) && old(runs)[run.value].status == Running
                      then old(runs)[run.value :=
                             old(runs)[run.value].(status := RunFailed, finishedAt := Some(now), error := Some(reason))]
                      else old(runs)
    {
      if item in items && items[item].state == Claimed {
        var current := items[item].(state := Failed);
        current := current.(completedAt := Some(now));
        items := items[item := current.(error := Some(reason))];
      }
      if run.Some? && run.value in runs && runs[run.value].status == Running {
        var row := runs[run.value].(status := RunFailed);
        row := row.(finishedAt := Some(now));
        runs := runs[run.value := row.(error := Some(reason))];
      }
    }

    method CancelJobRun(run: Id, niche: Option<Id>, now: int) returns (outcome: Outcome)
      modifies this`runs
      ensures (Tables(), outcome) == CancelRunDb(old(Tables()), run, niche, now)
    {
      if run !in runs || runs[run].niche != niche { return NotFound; }
      var row := runs[run];
      if row.status != Pending && row.status != Running { return Invalid; }
      row := row.(status := Cancelled);
      runs := runs[run := row.(finishedAt := Some(now))];
      return Ok;
    }

    method CancelQueueItem(item: Id, niche: Option<Id>, now: int) returns (outcome: Outcome)
      modifies this`items, this`runs
      ensures (Tables(), outcome) == CancelItemDb(old(Tables()), item, niche, now)
    {
      if item !in items || items[item].niche != niche { return NotFound; }
      var row := items[item];
      if row.state != Queued && row.state != Claimed { return Invalid; }
      row := row.(state := Failed);
      row := row.(completedAt := Some(now));
      items := items[item := row.(error := Some("cancelled by operator"))];
      if row.payload.JobRunRef? {
        var id := row.payload.run;
        if id in runs && (runs[id].status == Pending || runs[id].status == Running) {
          var run := runs[id].(status := Cancelled);
          runs := runs[id := run.(finishedAt := Some(now))];
        }
      }
      return Ok;
    }

    method RetryQueueItem(item: Id, niche: Option<Id>, now: int) returns (outcome: Outcome)
      modifies this`items
      ensures (Tables(), outcome) == RetryItemDb(old(Tables()), item, niche, now)
    {
      if item !in items || items[item].niche != niche { return NotFound; }
      var row := items[item];
      if row.state != Failed { return Invalid; }
      row := row.(state := Queued);
      row := row.(runAt := now);
      row := row.(completedAt := None);
      items := items[item := row.(error := None)];
      return Ok;
    }

    /** The earliest open item with the same work, or None: the scan behind idempotent enqueueing. */
    method OpenItem(niche: Option<Id>, queue: string, payload: PayloadRef) returns (found: Option<Id>)
      ensures found.Some? <==> HasOpenItem(Tables(), niche, queue, payload)
      ensures found.Some? ==> found.value in items && SameWork(items[found.value], niche, queue, payload)
      ensures found.Some? ==>
                forall i :: i in items && SameWork(items[i], niche, queue, payload) ==>
                  items[found.value].runAt <= items[i].runAt
    {
      found := None;
      var rest := items.Keys;
      while rest != {}
        invariant rest <= items.Keys
        invariant found.Some? ==> found.value in items && SameWork(items[found.value], niche, queue, payload)
        invariant forall i :: i in items.Keys - rest && SameWork(items[i], niche, queue, payload) ==>
                    found.Some? && items[found.value].runAt <= items[i].runAt
        decreases rest
      {
        var i :| i in rest;
        if SameWork(items[i], niche, queue, payload) && (found.None? || items[i].runAt < items[found.value].runAt) {
          found := Some(i);
        }
        rest := rest - {i};
      }
    }

    /** Refuses what is not acceptable; otherwise answers with an open item of the work, appending one if there is none. */
    method Enqueue(id: Id, niche: Option<Id>, known: set<Id>, queue: string, written: string,
                   read: string -> PayloadRef, maxAttempts: Option<int>, fallback: int, runAt: int)
      returns (outcome: Outcome, item: Id, created: bool)
      requires id !in items
      modifies this`items
      ensures outcome == Ok || outcome == Invalid
      ensures outcome == Ok <==>
                && !Blank(queue) && |queue| <= 80 && !Blank(written) && |written| <= 500
                && (niche.Some? ==> niche.value in known)
      ensures outcome != Ok ==> Tables() == old(Tables())
      ensures outcome == Ok ==>
                var payload := read(written);
                var cap := if maxAttempts.None? || maxAttempts == Some(0) then fallback else maxAttempts.value;
                && Tables() == EnqueueDb(old(Tables()), id, niche, queue, payload, cap, runAt)
                && (created <==> !HasOpenItem(old(Tables()), niche, queue, payload))
                && item in items && SameWork(items[item], niche, queue, payload)
                && forall i :: i in items && SameWork(items[i], niche, queue, payload) ==>
                     items[item].runAt <= items[i].runAt
    {
      if Blank(queue) || |queue| > 80 { return Invalid, id, false; }
      if Blank(written) || |written| > 500 { return Invalid, id, false; }
      if niche.Some? && niche.value !in known { return Invalid, id, false; }
      var payload := read(written);
      var existing := OpenItem(niche, queue, payload);
      if existing.Some? { return Ok, existing.value, false; }
      var cap := if maxAttempts.Some? && maxAttempts.value != 0 then maxAttempts.value else fallback;
      items := items[id := QueueItem(niche, queue, payload, Queued, 0, cap, runAt, None, None)];
      return Ok, id, true;
    }

    method EnqueueJob(job: Id, niche: Option<Id>, run: Id, item: Id, override: Option<string>, maxAttempts: int, runAt: int,
                      now: int)
      returns (outcome: Outcome)
      requires run !in runs && item !in items
      modifies this
      ensures (Tables(), outcome) == EnqueueJobDb(old(Tables()), job, niche, run, item, override, maxAttempts, runAt, now)
    {
      if job !in jobs || jobs[job].niche != niche { return NotFound; }
      var definition := jobs[job];
      if !definition.enabled { return Invalid; }
      runs := runs[run := JobRun(definition.niche, job, runAt, Pending, 0, None, None, None, None)];
      var payload := if override.Some? then OverrideRef(run, job, override.value) else JobRunRef(run);
      items := items[item := QueueItem(definition.niche, definition.queue, payload, Queued, 0, maxAttempts, runAt,
                                       None, None)];
      jobs := jobs[job := definition.(lastRunAt := Some(now))];
      return Ok;
    }

    method AdvanceJob(job: Id, niche: Option<Id>, next: int) returns (outcome: Outcome)
      modifies this`jobs
      ensures (Tables(), outcome) == AdvanceJobDb(old(Tables()), job, niche, next)
    {
      if job !in jobs || jobs[job].niche != niche { return NotFound; }
      jobs := jobs[job := jobs[job].(nextRunAt := Some(next))];
      return Ok;
    }

    /** The first transaction of a retry: which job to enqueue again. */
    method CheckRetry(run: Id, niche: Option<Id>) returns (outcome: Outcome, job: Id)
      ensures (outcome, job) == RetryAnswer(Tables(), run, niche)
    {
      if run !in runs || runs[run].niche != niche { return NotFound, 0; }
      if runs[run].status != RunFailed && runs[run].status != Cancelled { return Invalid, 0; }
      return Ok, runs[run].job;
    }

    /** Both transactions, with nobody in between. */
    method RetryJobRun(run: Id, niche: Option<Id>, newRun: Id, item: Id, maxAttempts: int, now: int)
      returns (outcome: Outcome)
      requires newRun !in runs && item !in items
      modifies this
      ensures (Tables(), outcome) == RetryRunDb(old(Tables()), run, niche, newRun, item, maxAttempts, now)
    {
      var checked, job := CheckRetry(run, niche);
      if checked != Ok { return checked; }
      outcome := EnqueueJob(job, niche, newRun, item, None, maxAttempts, now, now);
    }

    /** The admin service's repository writes the same rows under its own guards. */
    method MarkClaimed(id: Id)
      modifies this`items
      ensures Tables() == ClaimDb(old(Tables()), id)
    {
      if id in items && items[id].state == Queued {
        var row := items[id].(state := Claimed);
        items := items[id := row.(attempts := row.attempts + 1)];
      }
    }

    method AdminComplete(id: Id, now: int)
      modifies this`items
      ensures Tables() == AdminCompleteDb(old(Tables()), id, now)
    {
      if id in items && items[id].state == Claimed {
        var row := items[id].(state := Done);
        row := row.(completedAt := Some(now));
        items := items[id := row.(error := None)];
      }
    }

    method AdminFail(id: Id, error: string, now: int)
      modifies this`items
      ensures Tables() == AdminFailDb(old(Tables()), id, error, now)
    {
      if id in items && items[id].state == Claimed {
        var row := items[id].(state := Failed);
        row := row.(error := Some(if |error| <= 500 then error else error[..500]));
        items := items[id := row.(completedAt := Some(now))];
      }
    }

    method AdminRetry(id: Id, bound: int, now: int) returns (done: bool)
      modifies this`items
      ensures (Tables(), done) == AdminRetryDb(old(Tables()), id, bound, now)
    {
      if id !in items || items[id].state != Failed { return false; }
      var row := items[id];
      if row.attempts >= bound { return false; }
      row := row.(state := Queued);
      row := row.(error := None);
      row := row.(completedAt := None);
      items := items[id := row.(runAt := now)];
      return true;
    }
  }
}
