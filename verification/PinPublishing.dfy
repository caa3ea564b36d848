/** What publishing guarantees of every pin, after any run from an empty ledger. */
module PinPublishing {
  import opened Prelude
  import opened Pins
  import opened PinProtocol
  import opened PinSafety

  // ---------------------------------------------------------------- one publish at a time

  ghost predicate Flying(w: World, t: Id) {
    t in w.tasks && w.tasks[t].phase.InFlight?
  }

  /** An in-flight publish holds its pin, its claimed item and its pending attempt. */
  ghost predicate HoldsPin(w: World, t: Id)
    requires t in w.tasks
  {
    var task := w.tasks[t];
    && task.phase.InFlight? && task.phase.go.Go? && task.pin in w.db.pins && task.item in w.db.queue
    && w.db.pins[task.pin].status == Publishing
    && w.db.queue[task.item].state == Claimed && w.db.queue[task.item].pin == task.pin
    && task.phase.go.attempt < |w.db.attempts|
    && w.db.attempts[task.phase.go.attempt].pin == task.pin
    && w.db.attempts[task.phase.go.attempt].status == Pending
  }

  lemma StoryTellsLast(attempts: seq<Attempt>, p: Id)
    requires StoryOf(attempts, p).count > 0
    ensures var st := StoryOf(attempts, p);
            st.place < |attempts| && attempts[st.place].pin == p && attempts[st.place].status == st.last
  {
    var places := Mine(attempts, p);
    assert attempts[places[|places| - 1]].pin == p;
  }

  lemma SafeHolds(w: World, t: Id)
    requires Safe(w) && Flying(w, t)
    ensures HoldsPin(w, t)
  {
    FlierHolds(w, t, Told(w.db.attempts));
    StoryTellsLast(w.db.attempts, w.tasks[t].pin);
  }

  lemma StartSafe(maxAttempts: int)
    ensures Safe(Start(maxAttempts))
  {
  }

  /** Whatever the workers, crashes and operators do, a pin has one publish in flight at most. */
  lemma OnePublishInFlight(maxAttempts: int, es: seq<Event>, t: Id, u: Id)
    requires Flying(Run(Start(maxAttempts), es), t)
    ensures HoldsPin(Run(Start(maxAttempts), es), t)
    ensures
      var w := Run(Start(maxAttempts), es);
      Flying(w, u) && w.tasks[u].pin == w.tasks[t].pin ==> t == u
  {
    var w := Run(Start(maxAttempts), es);
    StartSafe(maxAttempts);
    RunKeeps(Start(maxAttempts), es);
    SafeHolds(w, t);
    if Flying(w, u) && w.tasks[u].pin == w.tasks[t].pin {
      SafeHolds(w, u);
      OneHolder(w, t, u);
    }
  }

  lemma OneHolder(w: World, t: Id, u: Id)
    requires OneItem(w.db.queue) && OneTask(w.tasks)
    requires t in w.tasks && u in w.tasks && HoldsPin(w, t) && HoldsPin(w, u) && w.tasks[t].pin == w.tasks[u].pin
    ensures t == u
  {
    assert w.db.queue[w.tasks[t].item].pin == w.db.queue[w.tasks[u].item].pin;
    assert w.tasks[t].item == w.tasks[u].item;
  }

  // ---------------------------------------------------------------- one success, and only then published

  /** A pin that left the drafts, unless it was cancelled unpublished, is in the queue for good. */
  ghost predicate Listed(w: World) {
    forall p :: p in w.db.pins ==> OnList(w.db.queue, p) || OffList(w.db.pins[p].status, StoryOf(w.db.attempts, p))
  }

  ghost predicate OnList(queue: map<Id, PinItem>, p: Id) {
    exists q :: q in queue && queue[q].pin == p
  }

  predicate OffList(status: PinStatus, st: Story) {
    (status == Draft || status == PinCancelled) && st == UNTOLD
  }

  lemma ItemsStay(w: World, e: Event, p: Id)
    requires OnList(w.db.queue, p)
    ensures OnList(Step(w, e).db.queue, p)
  {
    var q :| q in w.db.queue && w.db.queue[q].pin == p;
    assert q in Step(w, e).db.queue && Step(w, e).db.queue[q].pin == p;
  }

  /** Begin and Settle act for a task, whose pin has an item. */
  lemma TasksAreListed(w: World, t: Id)
    requires Safe(w) && t in w.tasks
    ensures w.tasks[t].pin in w.db.pins && OnList(w.db.queue, w.tasks[t].pin)
    ensures w.tasks[t].phase.InFlight? ==> HoldsPin(w, t)
  {
    assert TaskOk(w.tasks[t], w.db.queue, w.db.pins, Told(w.db.attempts), w.maxAttempts);
    if Flying(w, t) { SafeHolds(w, t); }
  }

  /** Only the pin of the event's task gets a new status or story from a publishing step. */
  lemma PublishTouchesOnePin(w: World, e: Event, p: Id)
    requires e.Begin? || e.Settle?
    requires e.task in w.tasks ==> p != w.tasks[e.task].pin && (w.tasks[e.task].phase.InFlight? ==> HoldsPin(w, e.task))
    requires p in w.db.pins
    ensures p in Step(w, e).db.pins && Step(w, e).db.pins[p] == w.db.pins[p]
    ensures StoryOf(Step(w, e).db.attempts, p) == StoryOf(w.db.attempts, p)
  {
    var w' := Step(w, e);
    if w'.db.attempts != w.db.attempts {
      var task := w.tasks[e.task];
      if e.Begin? {
        var (db', go) := BeginDb(w.db, task.pin, task.scope, task.item);
        OtherStoryGrows(w.db.attempts, Attempt(task.scope, task.pin, go.item, go.number, Pending), p, task.scope);
      } else {
        var k := task.phase.go.attempt;
        OtherStoryEnds(w.db.attempts, k, w'.db.attempts[k], p, task.scope);
      }
    }
  }

  lemma OtherStepKeepsListing(w: World, e: Event, p: Id)
    requires !e.Begin? && !e.Settle? && p in w.db.pins && OffList(w.db.pins[p].status, StoryOf(w.db.attempts, p))
    ensures p in Step(w, e).db.pins
    ensures OnList(Step(w, e).db.queue, p) || OffList(Step(w, e).db.pins[p].status, StoryOf(Step(w, e).db.attempts, p))
  {
    var w' := Step(w, e);
    assert w'.db.attempts == w.db.attempts;
    if e.Enqueue? && w' != w && e.pin == p {
      assert e.newItem in w'.db.queue && w'.db.queue[e.newItem].pin == p;
    }
  }

  lemma StepKeepsListing(w: World, e: Event, p: Id)
    requires Safe(w) && Listed(w) && p in Step(w, e).db.pins
    ensures OnList(Step(w, e).db.queue, p) || OffList(Step(w, e).db.pins[p].status, StoryOf(Step(w, e).db.attempts, p))
  {
    if OnList(w.db.queue, p) {
      ItemsStay(w, e, p);
    } else if p !in w.db.pins {
      NewPinUntold(w, e, p);
    } else if e.Begin? || e.Settle? {
      if e.task in w.tasks { TasksAreListed(w, e.task); }
      PublishTouchesOnePin(w, e, p);
    } else {
      OtherStepKeepsListing(w, e, p);
    }
  }

  lemma StepKeepsListed(w: World, e: Event)
    requires Safe(w) && Listed(w)
    ensures Listed(Step(w, e))
  {
    forall p | p in Step(w, e).db.pins
      ensures OnList(Step(w, e).db.queue, p) || OffList(Step(w, e).db.pins[p].status, StoryOf(Step(w, e).db.attempts, p))
    {
      StepKeepsListing(w, e, p);
    }
  }

  lemma NewPinUntold(w: World, e: Event, p: Id)
    requires Records(w.db) && p !in w.db.pins && p in Step(w, e).db.pins
    ensures OffList(Step(w, e).db.pins[p].status, StoryOf(Step(w, e).db.attempts, p))
  {
    assert e.Create? && e.newPin == p;
    NoAttempts(w.db.attempts, p);
  }

  lemma {:induction false} RunKeepsListed(w: World, es: seq<Event>)
    requires Safe(w) && Listed(w)
    ensures Listed(Run(w, es))
    decreases |es|
  {
    if es != [] {
      StepKeeps(w, es[0]);
      StepKeepsListed(w, es[0]);
      RunKeepsListed(Step(w, es[0]), es[1..]);
    }
  }

  lemma RunListed(maxAttempts: int, es: seq<Event>)
    ensures Safe(Run(Start(maxAttempts), es)) && Listed(Run(Start(maxAttempts), es))
  {
    StartSafe(maxAttempts);
    RunKeeps(Start(maxAttempts), es);
    RunKeepsListed(Start(maxAttempts), es);
  }

  /** A pin's attempts before its last are retryable failures. */
  lemma EarlierAttemptsFailed(attempts: seq<Attempt>, s: Scope, i: nat, j: nat)
    requires i < j < |attempts| && attempts[i].pin == attempts[j].pin && InOrder(attempts, attempts[i].pin, s)
    ensures attempts[i].status == Retryable
  {
    var places := Mine(attempts, attempts[i].pin);
    MineIsComplete(attempts, attempts[i].pin);
    var k :| 0 <= k < |places| && places[k] == i;
    var l :| 0 <= l < |places| && places[l] == j;
    assert k < l;
  }

  /** At most one attempt of a pin succeeds. */
  lemma OneSuccess(maxAttempts: int, es: seq<Event>, i: nat, j: nat)
    requires var a := Run(Start(maxAttempts), es).db.attempts;
             i < j < |a| && a[i].pin == a[j].pin
    ensures Run(Start(maxAttempts), es).db.attempts[i].status == Retryable
  {
    var w := Run(Start(maxAttempts), es);
    StartSafe(maxAttempts);
    RunKeeps(Start(maxAttempts), es);
    var p := w.db.attempts[i].pin;
    assert InOrder(w.db.attempts, p, w.db.pins[p].scope);
    EarlierAttemptsFailed(w.db.attempts, w.db.pins[p].scope, i, j);
  }

  ghost predicate Succeeded(attempts: seq<Attempt>, p: Id) {
    exists i :: 0 <= i < |attempts| && attempts[i].pin == p && attempts[i].status == Success
  }

  lemma SuccessIsLast(attempts: seq<Attempt>, p: Id, s: Scope)
    requires InOrder(attempts, p, s)
    ensures Succeeded(attempts, p) <==> StoryOf(attempts, p).last == Success
  {
    if Succeeded(attempts, p) {
      var i :| 0 <= i < |attempts| && attempts[i].pin == p && attempts[i].status == Success;
      NoRepeatAfterSuccess(attempts, p, s, i);
    }
    if StoryOf(attempts, p).last == Success { StoryTellsLast(attempts, p); }
  }

  lemma NoRepeatAfterSuccess(attempts: seq<Attempt>, p: Id, s: Scope, i: nat)
    requires InOrder(attempts, p, s) && i < |attempts| && attempts[i].pin == p && attempts[i].status == Success
    ensures StoryOf(attempts, p).last == Success
  {
    var places := Mine(attempts, p);
    MineIsComplete(attempts, p);
    var k :| 0 <= k < |places| && places[k] == i;
    assert k == |places| - 1;
  }

  /** A pin is published exactly when one of its attempts succeeded, exactly when its queue item is done. */
  lemma PublishedIffSucceeded(maxAttempts: int, es: seq<Event>, p: Id)
    requires p in Run(Start(maxAttempts), es).db.pins
    ensures
      var db := Run(Start(maxAttempts), es).db;
      && (db.pins[p].status == Published <==> Succeeded(db.attempts, p))
      && (db.pins[p].status == Published <==> exists q :: q in db.queue && db.queue[q].pin == p && db.queue[q].state == Done)
  {
    var w := Run(Start(maxAttempts), es);
    RunListed(maxAttempts, es);
    assert InOrder(w.db.attempts, p, w.db.pins[p].scope);
    SuccessIsLast(w.db.attempts, p, w.db.pins[p].scope);
    DoneMeansPublished(w, p);
  }

  lemma AgreeMeans(row: PinItem, status: PinStatus, st: Story, m: int)
    requires Agree(row, status, st, m)
    ensures status == Published <==> st.last == Success
    ensures status == Published <==> row.state == Done
  {
  }

  lemma DoneMeansPublished(w: World, p: Id)
    requires Safe(w) && Listed(w) && p in w.db.pins
    ensures w.db.pins[p].status == Published <==> StoryOf(w.db.attempts, p).last == Success
    ensures w.db.pins[p].status == Published <==>
              exists q :: q in w.db.queue && w.db.queue[q].pin == p && w.db.queue[q].state == Done
  {
    forall q | q in w.db.queue && w.db.queue[q].pin == p
      ensures w.db.pins[p].status == Published <==> StoryOf(w.db.attempts, p).last == Success
      ensures w.db.pins[p].status == Published <==> w.db.queue[q].state == Done
    {
      assert ItemOk(w.db.queue[q], w.db.pins, Told(w.db.attempts), w.maxAttempts);
      AgreeMeans(w.db.queue[q], w.db.pins[p].status, StoryOf(w.db.attempts, p), w.maxAttempts);
    }
    if !OnList(w.db.queue, p) { assert OffList(w.db.pins[p].status, StoryOf(w.db.attempts, p)); }
  }

  // ---------------------------------------------------------------- final statuses are not overwritten

  /** The unguarded final write meets only pins that are publishing. */
  lemma SettleMeetsPublishing(w: World, e: Event, p: Id)
    requires Safe(w) && e.Settle? && p in w.db.pins
    ensures p in Step(w, e).db.pins
    ensures Step(w, e).db.pins[p] != w.db.pins[p] ==> w.db.pins[p].status == Publishing
  {
    if Flying(w, e.task) {
      SafeHolds(w, e.task);
      WritesHeldPin(w, e, p);
    }
  }

  lemma WritesHeldPin(w: World, e: Event, p: Id)
    requires e.Settle? && Flying(w, e.task) && HoldsPin(w, e.task) && p in w.db.pins
    ensures p in Step(w, e).db.pins
    ensures Step(w, e).db.pins[p] != w.db.pins[p] ==> w.db.pins[p].status == Publishing
  {
  }

  lemma OtherWriteSparesFinalPin(w: World, e: Event, p: Id)
    requires !e.Settle? && p in w.db.pins
    ensures p in Step(w, e).db.pins
    ensures
      var (row, row') := (w.db.pins[p], Step(w, e).db.pins[p]);
      && (row.status == Published || row.status == PinCancelled ==> row' == row)
      && (row.status == PinFailed ==> row' == row || (e.Cancel? && row' == row.(status := PinCancelled)))
  {
  }

  /** A published or cancelled pin keeps its row; a failed pin can only be cancelled. */
  lemma FinalPinStays(w: World, e: Event, p: Id)
    requires Safe(w) && p in w.db.pins
    ensures p in Step(w, e).db.pins
    ensures
      var (row, row') := (w.db.pins[p], Step(w, e).db.pins[p]);
      && (row.status == Published || row.status == PinCancelled ==> row' == row)
      && (row.status == PinFailed ==> row' == row || (e.Cancel? && row' == row.(status := PinCancelled)))
  {
    if e.Settle? { SettleMeetsPublishing(w, e, p); } else { OtherWriteSparesFinalPin(w, e, p); }
  }

  lemma {:induction false} PublishedForGood(w: World, es: seq<Event>, p: Id)
    requires Safe(w) && p in w.db.pins && w.db.pins[p].status == Published
    ensures p in Run(w, es).db.pins && Run(w, es).db.pins[p] == w.db.pins[p]
    decreases |es|
  {
    if es != [] {
      FinalPinStays(w, es[0], p);
      StepKeeps(w, es[0]);
      PublishedForGood(Step(w, es[0]), es[1..], p);
    }
  }

  lemma {:induction false} RunSplits(w: World, es: seq<Event>, later: seq<Event>)
    ensures Run(w, es + later) == Run(Run(w, es), later)
    decreases |es|
  {
    if es == [] {
      assert es + later == later;
    } else {
      assert (es + later)[1..] == es[1..] + later;
      RunSplits(Step(w, es[0]), es[1..], later);
    }
  }

  /** Once published, a pin's row, remote id and time included, never changes again. */
  lemma PublishedIsAbsorbing(maxAttempts: int, es: seq<Event>, later: seq<Event>, p: Id)
    requires
      var w := Run(Start(maxAttempts), es);
      p in w.db.pins && w.db.pins[p].status == Published
    ensures
      var (w, w') := (Run(Start(maxAttempts), es), Run(Start(maxAttempts), es + later));
      p in w'.db.pins && w'.db.pins[p] == w.db.pins[p]
  {
    StartSafe(maxAttempts);
    RunKeeps(Start(maxAttempts), es);
    RunSplits(Start(maxAttempts), es, later);
    PublishedForGood(Run(Start(maxAttempts), es), later, p);
  }

  // ---------------------------------------------------------------- the attempt ledger

  /** How many attempts of a pin have their outcome on record. */
  function Recorded(attempts: seq<Attempt>, p: Id): nat {
    if attempts == [] then 0
    else
      var n := |attempts| - 1;
      Recorded(attempts[..n], p) + OneIf(attempts[n].pin == p && attempts[n].status != Pending)
  }

  lemma {:induction false} RecordedIsCount(attempts: seq<Attempt>, p: Id, s: Scope)
    requires InOrder(attempts, p, s)
    ensures var st := StoryOf(attempts, p); Recorded(attempts, p) == st.count - OneIf(st.last == Pending)
    decreases |attempts|
  {
    if attempts != [] {
      var before, a := attempts[..|attempts| - 1], attempts[|attempts| - 1];
      assert attempts == before + [a];
      if a.pin == p { OrderBefore(before, a, s); } else { OtherOrderBefore(before, a, p, s); }
      RecordedIsCount(before, p, s);
    }
  }

  /** Attempts of a pin are numbered 1 to n in the order they were made, and n stays within the allowance. */
  lemma AttemptLedger(maxAttempts: int, es: seq<Event>, p: Id, q: Id)
    requires
      var db := Run(Start(maxAttempts), es).db;
      p in db.pins && q in db.queue && db.queue[q].pin == p
    ensures
      var db := Run(Start(maxAttempts), es).db;
      var places := Mine(db.attempts, p);
      && (forall k :: 0 <= k < |places| ==> db.attempts[places[k]].number == k + 1)
      && |places| <= Max(1, maxAttempts)
      && db.queue[q].attempts == Recorded(db.attempts, p)
      && |places| - 1 <= Recorded(db.attempts, p) <= |places|
  {
    var w := Run(Start(maxAttempts), es);
    StartSafe(maxAttempts);
    RunKeeps(Start(maxAttempts), es);
    assert InOrder(w.db.attempts, p, w.db.pins[p].scope);
    RecordedIsCount(w.db.attempts, p, w.db.pins[p].scope);
    MaxAttemptsKept(Start(maxAttempts), es);
    LedgerOf(w, q);
  }

  lemma LedgerOf(w: World, q: Id)
    requires Safe(w) && q in w.db.queue
    ensures
      var st := StoryOf(w.db.attempts, w.db.queue[q].pin);
      st.count <= Max(1, w.maxAttempts) && w.db.queue[q].attempts == st.count - OneIf(st.last == Pending)
  {
    assert ItemOk(w.db.queue[q], w.db.pins, Told(w.db.attempts), w.maxAttempts);
  }

  lemma {:induction false} MaxAttemptsKept(w: World, es: seq<Event>)
    ensures Run(w, es).maxAttempts == w.maxAttempts
    decreases |es|
  {
    if es != [] { MaxAttemptsKept(Step(w, es[0]), es[1..]); }
  }

  // ---------------------------------------------------------------- a worker lost in flight

  /** A claimed item of a publishing pin that no worker holds any more. */
  ghost predicate Stranded(w: World, q: Id) {
    && q in w.db.queue && w.db.queue[q].state == Claimed
    && w.db.queue[q].pin in w.db.pins && w.db.pins[w.db.queue[q].pin].status == Publishing
    && forall t :: t in w.tasks ==> w.tasks[t].item != q
  }

  lemma StrandedStep(w: World, e: Event, q: Id)
    requires Safe(w) && Stranded(w, q)
    ensures Stranded(Step(w, e), q) && Step(w, e).db.queue[q] == w.db.queue[q]
    ensures var p := w.db.queue[q].pin; Step(w, e).db.pins[p] == w.db.pins[p]
  {
    var p := w.db.queue[q].pin;
    forall t | t in w.tasks ensures w.tasks[t].pin != p && w.tasks[t].pin in w.db.pins {
      assert TaskOk(w.tasks[t], w.db.queue, w.db.pins, Told(w.db.attempts), w.maxAttempts);
      assert w.db.queue[w.tasks[t].item].pin == w.tasks[t].pin;
    }
    StrandedUntouched(w, e, q);
  }

  lemma StrandedUntouched(w: World, e: Event, q: Id)
    requires Stranded(w, q) && ItemScoped(w, q)
    requires forall t :: t in w.tasks ==> w.tasks[t].pin != w.db.queue[q].pin
    requires e.Settle? && Flying(w, e.task) ==>
               HoldsPin(w, e.task) && w.tasks[e.task].phase.go.item == Some(w.tasks[e.task].item)
    ensures Stranded(Step(w, e), q) && Step(w, e).db.queue[q] == w.db.queue[q]
    ensures var p := w.db.queue[q].pin; Step(w, e).db.pins[p] == w.db.pins[p]
  {
  }

  ghost predicate ItemScoped(w: World, q: Id) {
    q in w.db.queue && w.db.queue[q].pin in w.db.pins && w.db.pins[w.db.queue[q].pin].scope == w.db.queue[q].scope
  }

  /** A worker that dies in flight leaves the pin publishing for ever: nobody can finish, retry or cancel it. */
  lemma {:induction false} LostWorkerStrandsPin(w: World, es: seq<Event>, q: Id)
    requires Safe(w) && Stranded(w, q)
    ensures
      var p := w.db.queue[q].pin;
      && q in Run(w, es).db.queue && p in Run(w, es).db.pins
      && Run(w, es).db.queue[q] == w.db.queue[q] && Run(w, es).db.pins[p] == w.db.pins[p]
    decreases |es|
  {
    if es != [] {
      StrandedStep(w, es[0], q);
      StepKeeps(w, es[0]);
      LostWorkerStrandsPin(Step(w, es[0]), es[1..], q);
    }
  }

  /** A worker that stops in flight, or while it waits to publish a pin again, strands its item. */
  lemma StopStrands(w: World, t: Id)
    requires Safe(w) && t in w.tasks
    ensures
      var (q, p) := (w.tasks[t].item, w.tasks[t].pin);
      Stranded(Step(w, Stop(t)), q) <==>
      q in w.db.queue && w.db.queue[q].state == Claimed && p in w.db.pins && w.db.pins[p].status == Publishing
    ensures Flying(w, t) ==> Stranded(Step(w, Stop(t)), w.tasks[t].item)
  {
    if Flying(w, t) { FlierHolds(w, t, Told(w.db.attempts)); }
    assert w.tasks[t].item in w.db.queue && w.db.queue[w.tasks[t].item].pin == w.tasks[t].pin by {
      assert TaskOk(w.tasks[t], w.db.queue, w.db.pins, Told(w.db.attempts), w.maxAttempts);
    }
    StopLetsGo(w.db, w.tasks, w.maxAttempts, t);
  }

  lemma StopLetsGo(db: Db, tasks: map<Id, Task>, m: int, t: Id)
    requires OneTask(tasks) && t in tasks
    ensures
      var w := Step(World(db, tasks, m), Stop(t));
      w.db == db && forall u :: u in w.tasks ==> w.tasks[u].item != tasks[t].item
  {
  }

  lemma CancelThaws(w: World, q: Id)
    requires Safe(w) && q in w.db.queue && w.db.queue[q].state == Claimed
    requires w.db.queue[q].pin in w.db.pins ==> w.db.pins[w.db.queue[q].pin].status != Publishing
    ensures
      var w' := Step(w, Cancel(w.db.queue[q].pin, w.db.queue[q].scope, 0));
      q in w'.db.queue && w'.db.queue[q].state == Cancelled
  {
    assert ItemOk(w.db.queue[q], w.db.pins, Told(w.db.attempts), w.maxAttempts);
  }

  lemma SettleThaws(w: World, t: Id)
    requires Flying(w, t) && HoldsPin(w, t) && w.tasks[t].phase.go.item == Some(w.tasks[t].item)
    requires w.tasks[t].scope == w.db.queue[w.tasks[t].item].scope
    ensures
      var w' := Step(w, Settle(t, Accepted("x"), 0));
      w.tasks[t].item in w'.db.queue && w'.db.queue[w.tasks[t].item].state == Done
  {
  }

  /** With its account connected, a waiting task of a publishing pin goes out. */
  lemma WaiterGoesOut(w: World, t: Id) returns (w': World)
    requires Safe(w) && t in w.tasks && w.tasks[t].phase.Waiting?
    requires w.tasks[t].pin in w.db.pins && w.db.pins[w.tasks[t].pin].status == Publishing
    ensures w' == Step(Step(w, SetAccount(w.tasks[t].scope.account, Account(w.tasks[t].scope.niche, Connected))), Begin(t))
    ensures Safe(w') && Flying(w', t) && w'.tasks[t].item == w.tasks[t].item && w'.db.queue == w.db.queue
  {
    var e := SetAccount(w.tasks[t].scope.account, Account(w.tasks[t].scope.niche, Connected));
    StepKeeps(w, e);
    w' := Step(Step(w, e), Begin(t));
    StepKeeps(Step(w, e), Begin(t));
    assert w.db.pins[w.tasks[t].pin].scope == w.tasks[t].scope by {
      assert TaskOk(w.tasks[t], w.db.queue, w.db.pins, Told(w.db.attempts), w.maxAttempts);
      assert ItemOk(w.db.queue[w.tasks[t].item], w.db.pins, Told(w.db.attempts), w.maxAttempts);
    }
    ConnectedGoesOut(w.db, w.tasks, w.maxAttempts, t);
  }

  lemma ConnectedGoesOut(db: Db, tasks: map<Id, Task>, m: int, t: Id)
    requires t in tasks && tasks[t].phase.Waiting? && tasks[t].pin in db.pins
    requires db.pins[tasks[t].pin].status == Publishing && db.pins[tasks[t].pin].scope == tasks[t].scope
    ensures
      var e := SetAccount(tasks[t].scope.account, Account(tasks[t].scope.niche, Connected));
      var w' := Step(Step(World(db, tasks, m), e), Begin(t));
      Flying(w', t) && w'.tasks[t].item == tasks[t].item && w'.db.queue == db.queue
  {
  }

  lemma FlyingThaws(w: World, t: Id)
    requires Safe(w) && Flying(w, t)
    ensures
      var w' := Step(w, Settle(t, Accepted("x"), 0));
      w.tasks[t].item in w'.db.queue && w'.db.queue[w.tasks[t].item].state == Done
  {
    SafeHolds(w, t);
    assert TaskOk(w.tasks[t], w.db.queue, w.db.pins, Told(w.db.attempts), w.maxAttempts);
    SettleThaws(w, t);
  }

  /** Some run changes a claimed item that is not stranded. */
  lemma Thaws(w: World, q: Id) returns (es: seq<Event>)
    requires Safe(w) && q in w.db.queue && w.db.queue[q].state == Claimed && !Stranded(w, q)
    ensures q in Run(w, es).db.queue && Run(w, es).db.queue[q] != w.db.queue[q]
  {
    var p := w.db.queue[q].pin;
    assert ItemOk(w.db.queue[q], w.db.pins, Told(w.db.attempts), w.maxAttempts);
    if w.db.pins[p].status != Publishing {
      es := [Cancel(p, w.db.queue[q].scope, 0)];
      CancelThaws(w, q);
      RunOne(w, es[0]);
    } else {
      var t :| t in w.tasks && w.tasks[t].item == q;
      assert TaskOk(w.tasks[t], w.db.queue, w.db.pins, Told(w.db.attempts), w.maxAttempts);
      if w.tasks[t].phase.InFlight? {
        es := [Settle(t, Accepted("x"), 0)];
        FlyingThaws(w, t);
        RunOne(w, es[0]);
      } else {
        es := WaiterThaws(w, t);
      }
    }
  }

  lemma WaiterThaws(w: World, t: Id) returns (es: seq<Event>)
    requires Safe(w) && t in w.tasks && w.tasks[t].phase.Waiting?
    requires w.tasks[t].pin in w.db.pins && w.db.pins[w.tasks[t].pin].status == Publishing
    requires w.tasks[t].item in w.db.queue && w.db.queue[w.tasks[t].item].state == Claimed
    ensures
      var q := w.tasks[t].item;
      q in Run(w, es).db.queue && Run(w, es).db.queue[q] != w.db.queue[q]
  {
    var connect := SetAccount(w.tasks[t].scope.account, Account(w.tasks[t].scope.niche, Connected));
    var w2 := WaiterGoesOut(w, t);
    FlyingThaws(w2, t);
    es := [connect, Begin(t)] + [Settle(t, Accepted("x"), 0)];
    RunSplits(w, [connect, Begin(t)], [Settle(t, Accepted("x"), 0)]);
    RunTwo(w, connect, Begin(t));
    RunOne(w2, Settle(t, Accepted("x"), 0));
  }

  lemma RunOne(w: World, e: Event)
    ensures Run(w, [e]) == Step(w, e)
  {
    assert [e][1..] == [] && Run(Step(w, e), []) == Step(w, e);
  }

  lemma RunTwo(w: World, e: Event, f: Event)
    ensures Run(w, [e, f]) == Step(Step(w, e), f)
  {
    assert [e, f][1..] == [f];
    RunOne(Step(w, e), f);
  }

  /** No run ever changes the item's row. */
  ghost predicate Frozen(w: World, q: Id) {
    q in w.db.queue && forall es :: q in Run(w, es).db.queue && Run(w, es).db.queue[q] == w.db.queue[q]
  }

  /**
   In every reachable ledger a claimed item can never change again exactly when its pin is publishing and no worker
   holds it: nobody can then finish, retry or cancel it, and in every other case somebody can.
   */
  lemma FrozenIffStranded(maxAttempts: int, history: seq<Event>, q: Id)
    requires
      var w := Run(Start(maxAttempts), history);
      q in w.db.queue && w.db.queue[q].state == Claimed
    ensures Frozen(Run(Start(maxAttempts), history), q) <==> Stranded(Run(Start(maxAttempts), history), q)
  {
    var w := Run(Start(maxAttempts), history);
    StartSafe(maxAttempts);
    RunKeeps(Start(maxAttempts), history);
    if Stranded(w, q) {
      forall es ensures q in Run(w, es).db.queue && Run(w, es).db.queue[q] == w.db.queue[q] {
        LostWorkerStrandsPin(w, es, q);
      }
    } else {
      var es := Thaws(w, q);
      assert Run(w, es).db.queue[q] != w.db.queue[q];
    }
  }

  // -- it does happen

  const HOME := Scope(0, 0)

  function ToFlight(maxAttempts: int): World {
    var w1 := Step(Step(Start(maxAttempts), SetBoard(0, HOME)), SetAccount(0, Account(0, Connected)));
    var w2 := Step(Step(w1, Create(0, HOME, Content(0, "t", "d", "m"), "c")), Enqueue(0, 0, HOME, 0));
    Step(Step(w2, Claim(0, 0, 0)), Begin(0))
  }

  lemma QueuedPin(maxAttempts: int) returns (w: World)
    ensures
      var w1 := Step(Step(Start(maxAttempts), SetBoard(0, HOME)), SetAccount(0, Account(0, Connected)));
      w == Step(Step(w1, Create(0, HOME, Content(0, "t", "d", "m"), "c")), Enqueue(0, 0, HOME, 0))
    ensures w.db.queue == map[0 := PinItem(HOME, 0, Queued, 0, 0, None)] && w.tasks == map[] && w.db.attempts == []
    ensures w.db.pins.Keys == {0} && w.db.pins[0].scope == HOME && w.db.pins[0].status == PinQueued
    ensures w.db.accounts == map[0 := Account(0, Connected)]
  {
    var w1 := Step(Step(Start(maxAttempts), SetBoard(0, HOME)), SetAccount(0, Account(0, Connected)));
    var w2 := Step(w1, Create(0, HOME, Content(0, "t", "d", "m"), "c"));
    w := Step(w2, Enqueue(0, 0, HOME, 0));
  }

  /** A run from the empty ledger whose worker is lost in flight: the pin is stranded. */
  lemma LostWorkerRun(maxAttempts: int)
    ensures Flying(ToFlight(maxAttempts), 0) && Stranded(Step(ToFlight(maxAttempts), Stop(0)), 0)
  {
    var w := QueuedPin(maxAttempts);
    var w1 := Step(w, Claim(0, 0, 0));
    assert w1.db.queue[0].state == Claimed && w1.tasks == map[0 := Task(0, 0, HOME, Waiting)];
    var w2 := Step(w1, Begin(0));
  }

  // ---------------------------------------------------------------- one intent, one pin

  ghost predicate OneIntentEach(pins: map<Id, Pin>) {
    forall p, q :: p in pins && q in pins && SameIntent(pins[p], pins[q]) ==> p == q
  }

  predicate SameIntent(a: Pin, b: Pin) {
    a.scope == b.scope && a.checksum == b.checksum
  }

  /** A pin keeps its account, its content and its checksum; only a draft is new. */
  lemma PinsKeepIntent(w: World, e: Event, p: Id)
    ensures p in w.db.pins ==>
              var (row, row') := (w.db.pins[p], Step(w, e).db.pins[p]);
              p in Step(w, e).db.pins && SameIntent(row, row') && row'.content == row.content
    ensures p in Step(w, e).db.pins && p !in w.db.pins ==>
              e.Create? && p == e.newPin && !ChecksumTaken(w.db, e.checksum, e.scope)
              && Step(w, e).db.pins == w.db.pins[p := Pin(e.scope, e.content, e.checksum, Draft, None, None)]
  {
  }

  lemma StepKeepsOneIntent(w: World, e: Event)
    requires OneIntentEach(w.db.pins)
    ensures OneIntentEach(Step(w, e).db.pins)
  {
    var (pins, pins') := (w.db.pins, Step(w, e).db.pins);
    forall p, q | p in pins' && q in pins' && SameIntent(pins'[p], pins'[q]) ensures p == q {
      PinsKeepIntent(w, e, p);
      PinsKeepIntent(w, e, q);
      if p in pins && q in pins { assert SameIntent(pins[p], pins[q]); }
    }
  }

  lemma {:induction false} RunKeepsOneIntent(w: World, es: seq<Event>)
    requires OneIntentEach(w.db.pins)
    ensures OneIntentEach(Run(w, es).db.pins)
    decreases |es|
  {
    if es != [] {
      StepKeepsOneIntent(w, es[0]);
      RunKeepsOneIntent(Step(w, es[0]), es[1..]);
    }
  }

  /** In every run no account has two pins of the same checksum, so one intent succeeds once at most. */
  lemma OneSuccessPerIntent(maxAttempts: int, es: seq<Event>, i: nat, j: nat)
    requires
      var db := Run(Start(maxAttempts), es).db;
      && i < |db.attempts| && j < |db.attempts| && i != j
      && db.attempts[i].pin in db.pins && db.attempts[j].pin in db.pins
      && SameIntent(db.pins[db.attempts[i].pin], db.pins[db.attempts[j].pin])
    ensures
      var a := Run(Start(maxAttempts), es).db.attempts;
      !(a[i].status == Success && a[j].status == Success)
  {
    var db := Run(Start(maxAttempts), es).db;
    RunKeepsOneIntent(Start(maxAttempts), es);
    assert db.attempts[i].pin == db.attempts[j].pin;
    OneSuccess(maxAttempts, es, if i < j then i else j, if i < j then j else i);
  }
}
