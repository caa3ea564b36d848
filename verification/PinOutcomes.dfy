/**
 What each step of publishing does to the rows, told field by field. The two transactions of a publish are told for
 every reachable ledger, where the task still holds the rows that it writes.
 */
module PinOutcomes {
  import opened Prelude
  import opened Pins
  import opened PinProtocol
  import opened PinSafety
  import opened PinPublishing

  // ---------------------------------------------------------------- drafts, the queue, cancelling

  /** A draft needs a board of its own account and a checksum that the account has not used. */
  lemma Drafting(w: World, p: Id, s: Scope, content: Content, checksum: string)
    requires p !in w.db.pins
    ensures
      var w' := Step(w, Create(p, s, content, checksum));
      if content.board in w.db.boards && w.db.boards[content.board] == s
         && forall x :: x in w.db.pins ==> !(w.db.pins[x].scope == s && w.db.pins[x].checksum == checksum)
      then w' == w.(db := w.db.(pins := w.db.pins[p := Pin(s, content, checksum, Draft, None, None)]))
      else w' == w
  {
    if x :| x in w.db.pins && w.db.pins[x].scope == s && w.db.pins[x].checksum == checksum {
      assert ChecksumTaken(w.db, checksum, s);
    }
  }

  /** A draft of the account that has no item yet is queued for the time given. */
  lemma Queueing(w: World, q: Id, p: Id, s: Scope, at: int)
    requires q !in w.db.queue
    ensures
      var w' := Step(w, Enqueue(q, p, s, at));
      if p in w.db.pins && w.db.pins[p].scope == s && w.db.pins[p].status == Draft
         && forall x :: x in w.db.queue ==> !(w.db.queue[x].scope == s && w.db.queue[x].pin == p)
      then w' == w.(db := w.db.(queue := w.db.queue[q := PinItem(s, p, Queued, 0, at, None)],
                                pins := w.db.pins[p := w.db.pins[p].(status := PinQueued)]))
      else w' == w
  {
    if x :| x in w.db.queue && w.db.queue[x].scope == s && w.db.queue[x].pin == p {
      assert ItemFor(w.db, x, p, s) && InQueue(w.db, p, s);
    }
  }

  /** Published and publishing pins cannot be cancelled; any other is, with its open items. */
  lemma Cancelling(w: World, p: Id, s: Scope, at: int)
    ensures
      var w' := Step(w, Cancel(p, s, at));
      if p in w.db.pins && w.db.pins[p].scope == s
         && w.db.pins[p].status != Published && w.db.pins[p].status != Publishing
      then
        && w'.tasks == w.tasks && w'.db.attempts == w.db.attempts && w'.db.queue.Keys == w.db.queue.Keys
        && w'.db.pins == w.db.pins[p := w.db.pins[p].(status := PinCancelled)]
        && forall q :: q in w.db.queue ==>
             var row := w.db.queue[q];
             w'.db.queue[q] ==
             if row.pin == p && row.scope == s && (row.state == Queued || row.state == Claimed)
             then row.(state := QueueState.Cancelled, completedAt := Some(at)) else row
      else w' == w
  {
  }

  /** What the three calls are answered. */
  lemma Answers(db: Db, p: Id, s: Scope, content: Content, checksum: string, q: Id, at: int)
    ensures
      CreateDb(db, p, s, content, checksum).1 ==
      if content.board !in db.boards || db.boards[content.board] != s then NotFound
      else if exists x :: x in db.pins && db.pins[x].scope == s && db.pins[x].checksum == checksum then Duplicate
      else Ok
    ensures
      EnqueueDb(db, q, p, s, at).1 ==
      if p !in db.pins || db.pins[p].scope != s then NotFound
      else if exists x :: x in db.queue && db.queue[x].scope == s && db.queue[x].pin == p then Duplicate
      else if db.pins[p].status == Draft then Ok else Invalid
    ensures
      CancelDb(db, p, s, at).1 ==
      if p !in db.pins || db.pins[p].scope != s then NotFound
      else if db.pins[p].status == Published || db.pins[p].status == Publishing then Invalid else Ok
  {
    if x :| x in db.queue && db.queue[x].scope == s && db.queue[x].pin == p {
      assert ItemFor(db, x, p, s) && InQueue(db, p, s);
    }
  }

  // ---------------------------------------------------------------- claiming

  predicate Waits(db: Db, q: Id, now: int, niche: Option<Id>) {
    && q in db.queue && db.queue[q].state == Queued && db.queue[q].runAt <= now
    && (niche == None || niche == Some(db.queue[q].scope.niche))
  }

  /**
   A batch takes queued items whose time has come, of the niche if one is named, each once. It leaves one out only if the
   limit is reached, and then takes none that is later. The items taken are claimed; nothing else is written.
   */
  lemma ClaimingBatch(db: Db, now: int, niche: Option<Id>, limit: nat, picked: seq<Id>)
    requires IsDuePick(db, now, niche, limit, picked)
    ensures |picked| <= limit && Distinct(picked)
    ensures forall q :: q in picked ==> Waits(db, q, now, niche)
    ensures forall q :: Waits(db, q, now, niche) && q !in picked ==>
              |picked| == limit && forall r :: r in picked ==> r in db.queue && db.queue[r].runAt <= db.queue[q].runAt
    ensures
      var db' := ClaimDb(db, picked);
      && db' == db.(queue := db'.queue) && db'.queue.Keys == db.queue.Keys
      && forall q :: q in db.queue ==>
           db'.queue[q] == if q in picked then db.queue[q].(state := Claimed) else db.queue[q]
  {
    forall q | q in picked ensures Waits(db, q, now, niche) { assert q in DueItems(db, now, niche); }
    forall q | Waits(db, q, now, niche) && q !in picked
      ensures |picked| == limit && forall r :: r in picked ==> r in db.queue && db.queue[r].runAt <= db.queue[q].runAt
    {
      assert q in DueItems(db, now, niche);
      LeftOut(db, now, niche, limit, picked, q);
    }
  }

  lemma LeftOut(db: Db, now: int, niche: Option<Id>, limit: nat, picked: seq<Id>, q: Id)
    requires IsDuePick(db, now, niche, limit, picked) && q in DueItems(db, now, niche) && q !in picked
    ensures |picked| == limit
  {
    DistinctSize(picked);
    assert Elements(picked) <= DueItems(db, now, niche) - {q};
    SubsetSize(Elements(picked), DueItems(db, now, niche) - {q});
  }

  /** A queued item whose time has come is claimed for one new task. */
  lemma Claiming(w: World, t: Id, q: Id, at: int)
    requires t !in w.tasks
    ensures
      var w' := Step(w, Claim(t, q, at));
      if q in w.db.queue && w.db.queue[q].state == Queued && w.db.queue[q].runAt <= at then
        var row := w.db.queue[q];
        && w'.db == w.db.(queue := w.db.queue[q := row.(state := Claimed)])
        && w'.tasks == w.tasks[t := Task(q, row.pin, row.scope, Waiting)]
      else w' == w
  {
    if Step(w, Claim(t, q, at)) != w { ClaimShape(w, Claim(t, q, at)); }
  }

  // ---------------------------------------------------------------- before the remote call

  predicate AccountOf(db: Db, s: Scope) {
    s.account in db.accounts && db.accounts[s.account].niche == s.niche
  }

  /**
   In a reachable ledger a waiting task does nothing if its pin has left the queue or its account is not there; it fails
   the pin of a disconnected account; otherwise the pin is publishing, and its next attempt, numbered one above those
   it has, is pending and in the task's hands.
   */
  lemma Beginning(w: World, t: Id)
    requires Safe(w) && t in w.tasks && w.tasks[t].phase.Waiting?
    ensures w.tasks[t].pin in w.db.pins
    ensures
      var (task, w') := (w.tasks[t], Step(w, Begin(t)));
      var (p, s, row) := (task.pin, task.scope, w.db.pins[task.pin]);
      if !(row.status == PinQueued || row.status == Publishing) || !AccountOf(w.db, s) then
        w'.db == w.db && w'.tasks == w.tasks - {t}
      else if w.db.accounts[s.account].status == Disconnected then
        w'.db == w.db.(pins := w.db.pins[p := row.(status := PinFailed)]) && w'.tasks == w.tasks - {t}
      else
        var number := |Mine(w.db.attempts, p)| + 1;
        && w'.db == w.db.(pins := w.db.pins[p := row.(status := Publishing)],
                          attempts := w.db.attempts + [Attempt(s, p, Some(task.item), number, Pending)])
        && w'.tasks == w.tasks[t := task.(phase := InFlight(Go(|w.db.attempts|, number, Some(task.item))))]
  {
    WaiterHas(w, t);
    HeldBeginning(w, t);
  }

  lemma WaiterHas(w: World, t: Id)
    requires Safe(w) && t in w.tasks && w.tasks[t].phase.Waiting?
    ensures HasPin(w.db, w.tasks[t].pin, w.tasks[t].scope) && HasItem(w.db, w.tasks[t].item, w.tasks[t].scope)
    ensures LastNumber(w.db.attempts, w.tasks[t].pin, w.tasks[t].scope) == |Mine(w.db.attempts, w.tasks[t].pin)|
  {
    var task := w.tasks[t];
    assert HasPin(w.db, task.pin, task.scope) && HasItem(w.db, task.item, task.scope) by {
      assert TaskOk(task, w.db.queue, w.db.pins, Told(w.db.attempts), w.maxAttempts);
      assert ItemOk(w.db.queue[task.item], w.db.pins, Told(w.db.attempts), w.maxAttempts);
    }
    assert InOrder(w.db.attempts, task.pin, task.scope);
    LastNumberIsCount(w.db.attempts, task.pin, task.scope);
  }

  lemma HeldBeginning(w: World, t: Id)
    requires t in w.tasks && w.tasks[t].phase.Waiting? && HasPin(w.db, w.tasks[t].pin, w.tasks[t].scope)
    requires HasItem(w.db, w.tasks[t].item, w.tasks[t].scope)
    ensures
      var (task, w') := (w.tasks[t], Step(w, Begin(t)));
      var (p, s, row) := (task.pin, task.scope, w.db.pins[task.pin]);
      if !(row.status == PinQueued || row.status == Publishing) || !AccountOf(w.db, s) then
        w'.db == w.db && w'.tasks == w.tasks - {t}
      else if w.db.accounts[s.account].status == Disconnected then
        w'.db == w.db.(pins := w.db.pins[p := row.(status := PinFailed)]) && w'.tasks == w.tasks - {t}
      else
        var number := LastNumber(w.db.attempts, p, s) + 1;
        && w'.db == w.db.(pins := w.db.pins[p := row.(status := Publishing)],
                          attempts := w.db.attempts + [Attempt(s, p, Some(task.item), number, Pending)])
        && w'.tasks == w.tasks[t := task.(phase := InFlight(Go(|w.db.attempts|, number, Some(task.item))))]
  {
  }

  // ---------------------------------------------------------------- after the remote call

  /** The rows that a task in flight holds. */
  predicate Held(w: World, t: Id) {
    && t in w.tasks && w.tasks[t].phase.InFlight? && w.tasks[t].phase.go.Go?
    && w.tasks[t].phase.go.item == Some(w.tasks[t].item)
    && HasPin(w.db, w.tasks[t].pin, w.tasks[t].scope) && HasItem(w.db, w.tasks[t].item, w.tasks[t].scope)
    && w.tasks[t].phase.go.attempt < |w.db.attempts|
  }

  lemma SafeIsHeld(w: World, t: Id)
    requires Safe(w) && Flying(w, t)
    ensures Held(w, t)
  {
    FlierHolds(w, t, Told(w.db.attempts));
    SafeHolds(w, t);
    assert ItemOk(w.db.queue[w.tasks[t].item], w.db.pins, Told(w.db.attempts), w.maxAttempts);
  }

  /** What a settle leaves of the three rows that its task holds; the task is gone and nothing else changes. */
  predicate SettledTo(w: World, w': World, t: Id, status: AttemptStatus, pin: Pin, item: PinItem)
    requires Held(w, t)
  {
    var (task, k) := (w.tasks[t], w.tasks[t].phase.go.attempt);
    && w'.db.accounts == w.db.accounts && w'.db.boards == w.db.boards && w'.tasks == w.tasks - {t}
    && w'.db.attempts == w.db.attempts[k := w.db.attempts[k].(status := status)]
    && w'.db.pins == w.db.pins[task.pin := pin]
    && w'.db.queue == w.db.queue[task.item := item]
  }

  /** An accepted publish: the attempt succeeded, the pin is published under its remote id, the item is done. */
  lemma Accepting(w: World, t: Id, remoteId: string, at: int)
    requires Safe(w) && Flying(w, t)
    ensures Held(w, t)
    ensures
      var (task, w') := (w.tasks[t], Step(w, Settle(t, Accepted(remoteId), at)));
      SettledTo(w, w', t, Success,
                w.db.pins[task.pin].(status := Published, remoteId := Some(remoteId), publishedAt := Some(at)),
                w.db.queue[task.item].(state := Done, attempts := task.phase.go.number, completedAt := Some(at)))
  {
    SafeIsHeld(w, t);
    HeldAccepting(w, t, remoteId, at);
  }

  lemma HeldAccepting(w: World, t: Id, remoteId: string, at: int)
    requires Held(w, t)
    ensures
      var (task, w') := (w.tasks[t], Step(w, Settle(t, Accepted(remoteId), at)));
      SettledTo(w, w', t, Success,
                w.db.pins[task.pin].(status := Published, remoteId := Some(remoteId), publishedAt := Some(at)),
                w.db.queue[task.item].(state := Done, attempts := task.phase.go.number, completedAt := Some(at)))
  {
  }

  /**
   A rejected publish is repeated exactly if the reply allows it and the number is below the allowance: then the attempt
   is a retryable failure, the pin is as it was, and the item is queued five minutes an attempt later. Otherwise the
   attempt, the pin and the item have failed, the item with its completion time.
   */
  lemma Rejecting(w: World, t: Id, retryable: bool, at: int)
    requires Safe(w) && Flying(w, t)
    ensures Held(w, t)
    ensures
      var (task, w') := (w.tasks[t], Step(w, Settle(t, Rejected(retryable), at)));
      var (number, pin, item) := (task.phase.go.number, w.db.pins[task.pin], w.db.queue[task.item]);
      if retryable && number < w.maxAttempts
      then SettledTo(w, w', t, Retryable, pin,
                     item.(state := Queued, attempts := number, runAt := at + 300 * number))
      else SettledTo(w, w', t, AttemptFailed, pin.(status := PinFailed),
                     item.(state := Failed, attempts := number, completedAt := Some(at)))
  {
    SafeIsHeld(w, t);
    HeldRejecting(w, t, retryable, at);
  }

  lemma HeldRejecting(w: World, t: Id, retryable: bool, at: int)
    requires Held(w, t)
    ensures
      var (task, w') := (w.tasks[t], Step(w, Settle(t, Rejected(retryable), at)));
      var (number, pin, item) := (task.phase.go.number, w.db.pins[task.pin], w.db.queue[task.item]);
      if retryable && number < w.maxAttempts
      then SettledTo(w, w', t, Retryable, pin,
                     item.(state := Queued, attempts := number, runAt := at + 300 * number))
      else SettledTo(w, w', t, AttemptFailed, pin.(status := PinFailed),
                     item.(state := Failed, attempts := number, completedAt := Some(at)))
  {
  }

  /** So in every run: a settled rejection is recorded as retryable exactly if it is and attempts remain. */
  lemma RepeatedIffAllowed(maxAttempts: int, es: seq<Event>, t: Id, retryable: bool, at: int)
    requires Flying(Run(Start(maxAttempts), es), t)
    ensures Held(Run(Start(maxAttempts), es), t)
    ensures
      var w := Run(Start(maxAttempts), es);
      var w' := Step(w, Settle(t, Rejected(retryable), at));
      var (task, k) := (w.tasks[t], w.tasks[t].phase.go.attempt);
      && k < |w'.db.attempts| && task.item in w'.db.queue && task.pin in w'.db.pins
      && (w'.db.attempts[k].status == Retryable <==> retryable && task.phase.go.number < maxAttempts)
      && (w'.db.queue[task.item].state == Queued <==> retryable && task.phase.go.number < maxAttempts)
      && (w'.db.pins[task.pin].status == PinFailed <==> !(retryable && task.phase.go.number < maxAttempts))
  {
    var w := Run(Start(maxAttempts), es);
    StartSafe(maxAttempts);
    RunKeeps(Start(maxAttempts), es);
    MaxAttemptsKept(Start(maxAttempts), es);
    Rejecting(w, t, retryable, at);
    FlierHolds(w, t, Told(w.db.attempts));
  }
}
