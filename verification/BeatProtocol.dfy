/**
 Beat ticks as a transition system, interleaved with everything the queue protocol does: ticks may crash or fail
 between any two of their transactions, and may overlap when the lock lets them.
 */
module BeatProtocol {
  import opened Prelude
  import opened QueueLedger
  import opened Scheduler
  import Q = QueueProtocol

  /** A tick in flight: when it got the lock, its clock reading, its jobs to do, and whether the first is enqueued. */
  datatype Tick = Tick(acquired: int, current: int, todo: seq<Id>, listed: bool, enqueued: bool)

  datatype World = World(
    clock: int,
    redis: bool,
    ttl: nat,
    limit: nat,
    maxAttempts: int,
    lock: Option<int>,
    queue: Q.World,
    ticks: map<Id, Tick>)

  datatype Event =
    | Elapse(seconds: nat)
    | Acquire(tick: Id)
    | List(tick: Id, picked: seq<Id>)
    | EnqueueNext(tick: Id, run: Id, item: Id)
    | MoveOn(tick: Id, next: Option<int>)
    | Release(tick: Id, reachable: bool)
    | Abort(tick: Id, reachable: bool)
    | Crash(tick: Id)
    | SetEnabled(job: Id, enabled: bool)
    | Elsewhere(step: Q.Event)

  predicate Locked(w: World) {
    w.redis && w.lock.Some? && w.clock < w.lock.value
  }

  function Put(w: World, id: Id, t: Tick): World {
    w.(ticks := w.ticks[id := t])
  }

  /** A tick ends and, if it reaches Redis, deletes the key. */
  function Leave(w: World, id: Id, reachable: bool): World {
    w.(ticks := w.ticks - {id}, lock := if w.redis && reachable then None else w.lock)
  }

  /** The tick has enqueued its first job and has not yet moved it on. */
  predicate Midway(t: Tick) {
    t.listed && t.enqueued && t.todo != []
  }

  /** The enqueue call of a tick. */
  function TickEnqueue(w: World, j: Id, run: Id, item: Id): Q.Event
    requires j in w.queue.db.jobs
  {
    Q.EnqueueJob(j, w.queue.db.jobs[j].niche, run, item, None, w.maxAttempts, w.clock)
  }

  /** A refused transaction raises, and a tick that fails releases the lock as one that ends; a crashed one does not. */
  function Step(w: World, e: Event): World {
    match e
    case Elapse(seconds) => w.(clock := w.clock + seconds)
    case Acquire(id) =>
      if id in w.ticks || Locked(w) then w
      else
        var t := Tick(w.clock, w.clock, [], false, false);
        Put(w.(lock := if w.redis then Some(w.clock + w.ttl) else w.lock), id, t)
    case List(id, picked) =>
      if id in w.ticks && !w.ticks[id].listed && (forall j :: j in picked ==> j in Due(w.queue.db.jobs, w.clock))
         && |picked| <= w.limit
      then Put(w, id, w.ticks[id].(current := w.clock, todo := picked, listed := true, enqueued := false)) else w
    case EnqueueNext(id, run, item) =>
      if id !in w.ticks || !w.ticks[id].listed || w.ticks[id].enqueued || w.ticks[id].todo == [] then w
      else if run in w.queue.db.runs || item in w.queue.db.items then w
      else
        var (t, j) := (w.ticks[id], w.ticks[id].todo[0]);
        if j in w.queue.db.jobs && w.queue.db.jobs[j].enabled
        then Put(w.(queue := Q.Step(w.queue, TickEnqueue(w, j, run, item))), id, t.(enqueued := true))
        else Leave(w, id, true)
    case MoveOn(id, next) =>
      if id !in w.ticks || !Midway(w.ticks[id]) || (next.Some? && next.value <= w.ticks[id].current) then w
      else
        var (t, j) := (w.ticks[id], w.ticks[id].todo[0]);
        var done := t.(todo := t.todo[1..], enqueued := false);
        if next.None? then Put(w, id, done)
        else if j !in w.queue.db.jobs then Leave(w, id, true)
        else
          var db := AdvanceJobDb(w.queue.db, j, w.queue.db.jobs[j].niche, next.value).0;
          Put(w.(queue := w.queue.(db := db)), id, done)
    case Release(id, reachable) =>
      if id in w.ticks && w.ticks[id].listed && w.ticks[id].todo == [] then Leave(w, id, reachable) else w
    case Abort(id, reachable) => if id in w.ticks then Leave(w, id, reachable) else w
    case Crash(id) => w.(ticks := w.ticks - {id})
    case SetEnabled(j, enabled) =>
      if j !in w.queue.db.jobs then w
      else
        var jobs := w.queue.db.jobs[j := w.queue.db.jobs[j].(enabled := enabled)];
        w.(queue := w.queue.(db := w.queue.db.(jobs := jobs)))
    case Elsewhere(step) => w.(queue := Q.Step(w.queue, step))
  }

  function Run(w: World, es: seq<Event>): World
    decreases |es|
  {
    if es == [] then w else Run(Step(w, es[0]), es[1..])
  }

  function Start(clock: int, redis: bool, ttl: nat, limit: nat, maxAttempts: int, queue: Q.World): World {
    World(clock, redis, ttl, limit, maxAttempts, None, queue, map[])
  }

  /** The lock object of one tick process; the key, with the time it expires, is Redis's own and shared. */
  class BeatLock {
    const redis: bool
    const ttl: nat
    var key: Option<int>
    var open: bool

    constructor (redis: bool, ttl: nat, key: Option<int>)
      ensures this.redis == redis && this.ttl == ttl && this.key == key && !open
    {
      this.redis, this.ttl, this.key, this.open := redis, ttl, key, false;
    }

    /** Without Redis every tick may go; with it, only one that finds no live key. An unreachable Redis refuses. */
    method Acquire(clock: int, reachable: bool) returns (acquired: bool)
      modifies this
      ensures !redis ==> acquired && key == old(key)
      ensures redis && !reachable ==> !acquired && key == old(key) && !open
      ensures redis && reachable ==>
                forall w: World, id: Id ::
                  w.redis && w.ttl == ttl && w.lock == old(key) && w.clock == clock && id !in w.ticks ==>
                  var w' := Step(w, Event.Acquire(id));
                  (acquired <==> id in w'.ticks) && w'.lock == key
    {
      if !redis { return true; }
      if !reachable {
        open := false;
        return false;
      }
      open := true;
      if key.Some? && clock < key.value { return false; }
      key := Some(clock + ttl);
      return true;
    }

    /** Releasing deletes the key whoever holds it by then, if Redis can be reached; a failure to do so is swallowed. */
    method Release(reachable: bool)
      modifies this
      ensures key == (if old(open) && reachable then None else old(key)) && !open
    {
      if open {
        if reachable { key := None; }
        open := false;
      }
    }
  }

  // ---------------------------------------------------------------- accounting

  function RunsOf(db: Db, j: Id): set<Id> {
    set r | r in db.runs && db.runs[r].job == j
  }

  /** Ticks between enqueueing a job and moving it on. */
  ghost function MidTicks(ticks: map<Id, Tick>, j: Id): set<Id> {
    set id | id in ticks && MidwayOn(ticks[id], j)
  }

  predicate MidwayOn(t: Tick, j: Id) {
    Midway(t) && t.todo[0] == j
  }

  predicate Enqueueable(db: Db, job: Id, niche: Option<Id>) {
    job in db.jobs && db.jobs[job].niche == niche && db.jobs[job].enabled
  }

  /** The step creates a run of the job. */
  predicate BringsRun(db: Db, e: Q.Event, j: Id) {
    match e
    case EnqueueJob(job, niche, newRun, newItem, _, _, _) =>
      newRun !in db.runs && newItem !in db.items && job == j && Enqueueable(db, job, niche)
    case RetryRun(run, niche, newRun, newItem, _, _) =>
      && newRun !in db.runs && newItem !in db.items
      && run in db.runs && db.runs[run].niche == niche && db.runs[run].job == j
      && (db.runs[run].status == RunFailed || db.runs[run].status == Cancelled) && Enqueueable(db, j, niche)
    case _ => false
  }

  /** How a run of a job came to be followed by a move of the job, or by none. */
  datatype Mark = Moved | Skipped | Lost | ByHand

  /** A tick that has enqueued the job moves it on, skips it for its malformed expression, or is lost before it does. */
  function MarkOf(w: World, e: Event, j: Id): Option<Mark> {
    match e
    case MoveOn(id, next) =>
      if id !in w.ticks || !MidwayOn(w.ticks[id], j) then None
      else if next.None? then Some(Skipped)
      else if next.value <= w.ticks[id].current then None
      else if j in w.queue.db.jobs then Some(Moved) else Some(Lost)
    case Abort(id, _) => if id in w.ticks && MidwayOn(w.ticks[id], j) then Some(Lost) else None
    case Crash(id) => if id in w.ticks && MidwayOn(w.ticks[id], j) then Some(Lost) else None
    case Elsewhere(step) => if BringsRun(w.queue.db, step, j) then Some(ByHand) else None
    case _ => None
  }

  /** How often a run of events does so. */
  function Count(w: World, es: seq<Event>, j: Id, mark: Mark): nat
    decreases |es|
  {
    if es == [] then 0 else OneIf(MarkOf(w, es[0], j) == Some(mark)) + Count(Step(w, es[0]), es[1..], j, mark)
  }

  lemma PutCount(ticks: map<Id, Tick>, id: Id, t: Tick, j: Id)
    ensures |MidTicks(ticks[id := t], j)| + OneIf(id in ticks && MidwayOn(ticks[id], j))
         == |MidTicks(ticks, j)| + OneIf(MidwayOn(t, j))
  {
    var (mid, mid') := (MidTicks(ticks, j), MidTicks(ticks[id := t], j));
    assert mid' - {id} == mid - {id};
    assert |mid'| == |mid' - {id}| + OneIf(id in mid');
    assert |mid| == |mid - {id}| + OneIf(id in mid);
  }

  lemma DropCount(ticks: map<Id, Tick>, id: Id, j: Id)
    ensures |MidTicks(ticks - {id}, j)| + OneIf(id in ticks && MidwayOn(ticks[id], j)) == |MidTicks(ticks, j)|
  {
    assert MidTicks(ticks - {id}, j) == MidTicks(ticks, j) - {id};
    assert id in MidTicks(ticks, j) <==> id in ticks && MidwayOn(ticks[id], j);
  }

  /** Whatever happens in the queue, a run keeps its job, and only an enqueue of the job brings a run of it. */
  lemma QueueStepRuns(w: Q.World, e: Q.Event, j: Id)
    ensures RunsOf(Q.Step(w, e).db, j)
         == if BringsRun(w.db, e, j) then RunsOf(w.db, j) + {e.newRun} else RunsOf(w.db, j)
    ensures BringsRun(w.db, e, j) ==> e.newRun !in RunsOf(w.db, j)
  {
    var db' := Q.Step(w, e).db;
    forall r ensures r in RunsOf(db', j) <==> r in RunsOf(w.db, j) || (BringsRun(w.db, e, j) && r == e.newRun) {
      if e.EnqueueJob? || e.RetryRun? { NewRunJob(w, e, r, j); } else { RunKeepsJob(w, e, r); }
    }
  }

  lemma RunKeepsJob(w: Q.World, e: Q.Event, r: Id)
    requires !e.EnqueueJob? && !e.RetryRun?
    ensures r in Q.Step(w, e).db.runs <==> r in w.db.runs
    ensures r in w.db.runs ==> Q.Step(w, e).db.runs[r].job == w.db.runs[r].job
  {
  }

  lemma NewRunJob(w: Q.World, e: Q.Event, r: Id, j: Id)
    requires e.EnqueueJob? || e.RetryRun?
    ensures r in w.db.runs ==> r in Q.Step(w, e).db.runs && Q.Step(w, e).db.runs[r] == w.db.runs[r]
    ensures r !in w.db.runs ==>
              (r in Q.Step(w, e).db.runs && Q.Step(w, e).db.runs[r].job == j <==>
               BringsRun(w.db, e, j) && r == e.newRun)
  {
  }

  /** The runs of a job, less the ticks midway on it. */
  ghost function Followed(w: World, j: Id): int {
    |RunsOf(w.queue.db, j)| - |MidTicks(w.ticks, j)|
  }

  lemma QueueStepCount(w: Q.World, e: Q.Event, j: Id)
    ensures |RunsOf(Q.Step(w, e).db, j)| == |RunsOf(w.db, j)| + OneIf(BringsRun(w.db, e, j))
  {
    QueueStepRuns(w, e, j);
  }

  /** An enqueue of a tick brings a run of its job and leaves the tick midway on it, or the tick fails. */
  lemma EnqueueAccounts(w: World, e: Event, j: Id)
    requires e.EnqueueNext? && Step(w, e) != w
    ensures Followed(Step(w, e), j) == Followed(w, j)
  {
    var (w', t) := (Step(w, e), w.ticks[e.tick]);
    if t.todo[0] in w.queue.db.jobs && w.queue.db.jobs[t.todo[0]].enabled {
      var call := TickEnqueue(w, t.todo[0], e.run, e.item);
      assert w'.queue == Q.Step(w.queue, call) && w'.ticks == w.ticks[e.tick := t.(enqueued := true)];
      QueueStepCount(w.queue, call, j);
      PutCount(w.ticks, e.tick, t.(enqueued := true), j);
    } else {
      assert w'.queue == w.queue && w'.ticks == w.ticks - {e.tick};
      DropCount(w.ticks, e.tick, j);
    }
  }

  /** Moving on, or failing to, ends the tick's stay midway. */
  lemma MoveShape(w: World, e: Event)
    requires e.MoveOn? && Step(w, e) != w
    ensures e.tick in w.ticks && Midway(w.ticks[e.tick]) && Step(w, e).queue.db.runs == w.queue.db.runs
    ensures
      var t := w.ticks[e.tick];
      || Step(w, e).ticks == w.ticks - {e.tick}
      || Step(w, e).ticks == w.ticks[e.tick := t.(todo := t.todo[1..], enqueued := false)]
  {
  }

  lemma MoveAccounts(w: World, e: Event, j: Id)
    requires e.MoveOn? && Step(w, e) != w
    ensures Followed(Step(w, e), j) == Followed(w, j) + OneIf(MarkOf(w, e, j).Some?)
  {
    MoveShape(w, e);
    var t := w.ticks[e.tick];
    assert RunsOf(Step(w, e).queue.db, j) == RunsOf(w.queue.db, j);
    DropCount(w.ticks, e.tick, j);
    PutCount(w.ticks, e.tick, t.(todo := t.todo[1..], enqueued := false), j);
    assert MarkOf(w, e, j).Some? <==> MidwayOn(t, j);
  }

  lemma LeaveAccounts(w: World, e: Event, j: Id)
    requires e.Release? || e.Abort? || e.Crash?
    ensures Followed(Step(w, e), j) == Followed(w, j) + OneIf(MarkOf(w, e, j).Some?)
  {
    DropCount(w.ticks, e.tick, j);
    assert e.tick !in w.ticks ==> w.ticks - {e.tick} == w.ticks;
  }

  /** Getting the lock and listing the due jobs leave a tick short of midway. */
  lemma BeginAccounts(w: World, e: Event, j: Id)
    requires e.Acquire? || e.List?
    ensures Followed(Step(w, e), j) == Followed(w, j)
  {
    if Step(w, e) != w { PutCount(w.ticks, e.tick, Step(w, e).ticks[e.tick], j); }
  }

  lemma StepAccounts(w: World, e: Event, j: Id)
    ensures Followed(Step(w, e), j) == Followed(w, j) + OneIf(MarkOf(w, e, j).Some?)
  {
    match e
    case Elapse(_) =>
    case SetEnabled(_, _) => assert RunsOf(Step(w, e).queue.db, j) == RunsOf(w.queue.db, j);
    case Acquire(_) => BeginAccounts(w, e, j);
    case List(_, _) => BeginAccounts(w, e, j);
    case EnqueueNext(_, _, _) => if Step(w, e) != w { EnqueueAccounts(w, e, j); }
    case MoveOn(_, _) => if Step(w, e) != w { MoveAccounts(w, e, j); } else { StaysMidway(w, e, j); }
    case Elsewhere(step) => QueueStepCount(w.queue, step, j);
    case _ => LeaveAccounts(w, e, j);
  }

  /** A move that changes nothing is none. */
  lemma StaysMidway(w: World, e: Event, j: Id)
    requires e.MoveOn? && Step(w, e) == w
    ensures MarkOf(w, e, j).None?
  {
    if e.tick in w.ticks && Midway(w.ticks[e.tick]) {
      var t := w.ticks[e.tick];
      assert w.ticks[e.tick := t.(todo := t.todo[1..], enqueued := false)][e.tick] != t;
      assert e.tick !in w.ticks - {e.tick};
    }
  }

  lemma {:induction false} RunAccounts(w: World, es: seq<Event>, j: Id)
    ensures Followed(Run(w, es), j) ==
            Followed(w, j) + Count(w, es, j, Moved) + Count(w, es, j, Skipped) + Count(w, es, j, Lost)
            + Count(w, es, j, ByHand)
    decreases |es|
  {
    if es != [] {
      StepAccounts(w, es[0], j);
      RunAccounts(Step(w, es[0]), es[1..], j);
    }
  }

  predicate ValidMoves(es: seq<Event>) {
    forall e :: e in es && e.MoveOn? ==> e.next.Some?
  }

  lemma {:induction false} NothingSkipped(w: World, es: seq<Event>, j: Id)
    requires ValidMoves(es)
    ensures Count(w, es, j, Skipped) == 0
    decreases |es|
  {
    if es != [] {
      assert es[0] in es;
      forall e | e in es[1..] ensures e in es {}
      NothingSkipped(Step(w, es[0]), es[1..], j);
    }
  }

  /**
   In every interleaving of ticks, crashes, errors, workers and operators, the job-run rows of a job are accounted
   for: those there were, those operators asked for, and those of ticks, each of which moved the job on, was lost before
   it could, found its expression malformed (never, if all are valid), or is midway.
   */
  lemma SchedulerAccounting(clock: int, redis: bool, ttl: nat, limit: nat, maxAttempts: int, queue: Q.World,
                            es: seq<Event>, j: Id)
    ensures
      var w0 := Start(clock, redis, ttl, limit, maxAttempts, queue);
      var w := Run(w0, es);
      && |RunsOf(w.queue.db, j)| ==
           |RunsOf(queue.db, j)| + Count(w0, es, j, ByHand) + Count(w0, es, j, Moved) + Count(w0, es, j, Lost)
           + Count(w0, es, j, Skipped) + |MidTicks(w.ticks, j)|
      && (ValidMoves(es) ==> Count(w0, es, j, Skipped) == 0)
  {
    var w0 := Start(clock, redis, ttl, limit, maxAttempts, queue);
    assert MidTicks(w0.ticks, j) == {};
    RunAccounts(w0, es, j);
    if ValidMoves(es) { NothingSkipped(w0, es, j); }
  }

  // ---------------------------------------------------------------- the lock

  predicate Timely(w: World) {
    forall id :: id in w.ticks ==> w.clock < w.ticks[id].acquired + w.ttl
  }

  /** Every tick has ended, in whatever way, before its lock would expire. */
  predicate TimelyRun(w: World, es: seq<Event>)
    decreases |es|
  {
    Timely(w) && (es == [] || TimelyRun(Step(w, es[0]), es[1..]))
  }

  /** At most one tick, and it holds the lock it took. */
  predicate OneHolder(w: World) {
    && w.redis
    && (forall a, b :: a in w.ticks && b in w.ticks ==> a == b)
    && (forall id :: id in w.ticks ==> w.lock == Some(w.ticks[id].acquired + w.ttl))
  }

  lemma StepKeepsHolder(w: World, e: Event)
    requires OneHolder(w) && Timely(w)
    ensures OneHolder(Step(w, e))
  {
  }

  lemma {:induction false} RunKeepsHolder(w: World, es: seq<Event>)
    requires OneHolder(w) && TimelyRun(w, es)
    ensures OneHolder(Run(w, es))
    decreases |es|
  {
    if es != [] {
      StepKeepsHolder(w, es[0]);
      RunKeepsHolder(Step(w, es[0]), es[1..]);
    }
  }

  /** With Redis and ticks that end within the lock's lifetime, two ticks never overlap. */
  lemma TicksNeverOverlap(clock: int, ttl: nat, limit: nat, maxAttempts: int, queue: Q.World, es: seq<Event>, a: Id,
                          b: Id)
    requires TimelyRun(Start(clock, true, ttl, limit, maxAttempts, queue), es)
    ensures
      var w := Run(Start(clock, true, ttl, limit, maxAttempts, queue), es);
      a in w.ticks && b in w.ticks ==> a == b
  {
    RunKeepsHolder(Start(clock, true, ttl, limit, maxAttempts, queue), es);
  }

  /** A tick that tried to start now would find no other one running. */
  ghost predicate NoneBeside(w: World) {
    forall a, b :: a in w.ticks && b !in w.ticks ==>
      !(a in Step(w, Acquire(b)).ticks && b in Step(w, Acquire(b)).ticks)
  }

  /** At no moment of the run could a second tick start beside a running one. */
  ghost predicate NeverBeside(w: World, es: seq<Event>)
    decreases |es|
  {
    NoneBeside(w) && (es == [] || NeverBeside(Step(w, es[0]), es[1..]))
  }

  lemma BesideIffExpired(w: World)
    requires OneHolder(w)
    ensures NoneBeside(w) <==> Timely(w)
  {
    if a :| a in w.ticks && w.clock >= w.ticks[a].acquired + w.ttl {
      assert a + 1 !in w.ticks && w.lock == Some(w.ticks[a].acquired + w.ttl);
      assert a in Step(w, Acquire(a + 1)).ticks && a + 1 in Step(w, Acquire(a + 1)).ticks;
    }
  }

  lemma {:induction false} HolderDecides(w: World, es: seq<Event>)
    requires OneHolder(w)
    ensures NeverBeside(w, es) <==> TimelyRun(w, es)
    decreases |es|
  {
    BesideIffExpired(w);
    if es != [] && Timely(w) {
      StepKeepsHolder(w, es[0]);
      HolderDecides(Step(w, es[0]), es[1..]);
    }
  }

  /** The lifetime decides: at no moment of a run could a second tick start beside a running one iff none outlives its lock. */
  lemma OverlapIffExpired(clock: int, ttl: nat, limit: nat, maxAttempts: int, queue: Q.World, es: seq<Event>)
    ensures
      var w0 := Start(clock, true, ttl, limit, maxAttempts, queue);
      NeverBeside(w0, es) <==> TimelyRun(w0, es)
  {
    HolderDecides(Start(clock, true, ttl, limit, maxAttempts, queue), es);
  }
}
