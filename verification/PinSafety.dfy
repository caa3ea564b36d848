/** At-most-once publishing and the attempt ledger, in every interleaving. */
module PinSafety {
  import opened Prelude
  import opened Pins
  import opened PinProtocol

  // ---------------------------------------------------------------- the invariant

  /** What the attempt records say of each pin. */
  type Stories = Id -> Story

  predicate MayBegin(st: Story, maxAttempts: int) {
    st.last == Retryable && (st.count == 0 || st.count < maxAttempts)
  }

  /** How a queue item, its pin and the pin's attempt records go together. */
  predicate Agree(row: PinItem, status: PinStatus, st: Story, maxAttempts: int) {
    && st.count <= Max(1, maxAttempts)
    && row.attempts == st.count - OneIf(st.last == Pending)
    && (status == PinQueued ==> st.count == 0)
    && match row.state
       case Queued => (status == PinQueued || status == Publishing) && MayBegin(st, maxAttempts)
       case Claimed =>
         && (status == PinQueued || status == Publishing || status == PinFailed)
         && (MayBegin(st, maxAttempts) || st.last == Pending)
       case Done => status == Published && st.last == Success
       case Failed => (status == PinFailed || status == PinCancelled) && st.last == AttemptFailed
       case Cancelled => status == PinCancelled && (MayBegin(st, maxAttempts) || st.last == Pending)
  }

  ghost predicate ItemOk(row: PinItem, pins: map<Id, Pin>, st: Stories, maxAttempts: int) {
    row.pin in pins && pins[row.pin].scope == row.scope && Agree(row, pins[row.pin].status, st(row.pin), maxAttempts)
  }

  /** In flight, a task owns its pin's pending last attempt, and the pin is publishing. */
  ghost predicate TaskOk(t: Task, queue: map<Id, PinItem>, pins: map<Id, Pin>, st: Stories, maxAttempts: int) {
    && t.item in queue && t.pin in pins
    && t.pin == queue[t.item].pin && t.scope == queue[t.item].scope
    && match t.phase
       case Waiting =>
         || queue[t.item].state == Cancelled
         || (queue[t.item].state == Claimed && MayBegin(st(t.pin), maxAttempts))
       case InFlight(go) =>
         && queue[t.item].state == Claimed && pins[t.pin].status == Publishing
         && go.Go? && go.item == Some(t.item)
         && st(t.pin) == Story(go.number, go.attempt, Pending) && go.number > 0
  }

  ghost predicate OneItem(queue: map<Id, PinItem>) {
    forall q, r :: q in queue && r in queue && queue[q].pin == queue[r].pin ==> q == r
  }

  ghost predicate OneTask(tasks: map<Id, Task>) {
    forall t, u :: t in tasks && u in tasks && tasks[t].item == tasks[u].item ==> t == u
  }

  ghost predicate ItemsOk(queue: map<Id, PinItem>, pins: map<Id, Pin>, st: Stories, maxAttempts: int) {
    forall q :: q in queue ==> ItemOk(queue[q], pins, st, maxAttempts)
  }

  ghost predicate TasksOk(tasks: map<Id, Task>, queue: map<Id, PinItem>, pins: map<Id, Pin>, st: Stories, maxAttempts: int) {
    forall t :: t in tasks ==> TaskOk(tasks[t], queue, pins, st, maxAttempts)
  }

  ghost predicate Drafts(pins: map<Id, Pin>, st: Stories) {
    forall p :: p in pins && pins[p].status == Draft ==> st(p) == UNTOLD
  }

  /** One item a pin, one task an item, and everything agrees with the stories. */
  ghost predicate Agreed(w: World, st: Stories) {
    && OneItem(w.db.queue)
    && OneTask(w.tasks)
    && ItemsOk(w.db.queue, w.db.pins, st, w.maxAttempts)
    && TasksOk(w.tasks, w.db.queue, w.db.pins, st, w.maxAttempts)
    && Drafts(w.db.pins, st)
  }

  // ---------------------------------------------------------------- steps that leave the records alone

  lemma CreateAgrees(w: World, e: Event, st: Stories)
    requires e.Create? && Agreed(w, st) && (e.newPin !in w.db.pins ==> st(e.newPin) == UNTOLD)
    ensures Agreed(Step(w, e), st)
  {
  }

  lemma EnqueueAgrees(w: World, e: Event, st: Stories)
    requires e.Enqueue? && Agreed(w, st)
    ensures Agreed(Step(w, e), st)
  {
    if Step(w, e) != w {
      var row := PinItem(e.scope, e.pin, Queued, 0, e.at, None);
      var pin := w.db.pins[e.pin].(status := PinQueued);
      forall q | q in w.db.queue ensures w.db.queue[q].pin != e.pin {
        assert ItemOk(w.db.queue[q], w.db.pins, st, w.maxAttempts);
        assert !ItemFor(w.db, q, e.pin, e.scope);
      }
      assert st(e.pin) == UNTOLD;
      NewRow(w.db.queue, w.db.pins, w.tasks, e.newItem, row, pin, st, w.maxAttempts);
    }
  }

  lemma NewRow(queue: map<Id, PinItem>, pins: map<Id, Pin>, tasks: map<Id, Task>, q: Id, row: PinItem, pin: Pin,
               st: Stories, m: int)
    requires OneItem(queue) && ItemsOk(queue, pins, st, m) && TasksOk(tasks, queue, pins, st, m) && Drafts(pins, st)
    requires q !in queue && row.pin in pins && forall r :: r in queue ==> queue[r].pin != row.pin
    requires pin.scope == pins[row.pin].scope && pin.status != Draft
    requires ItemOk(row, pins[row.pin := pin], st, m)
    ensures
      var (queue', pins') := (queue[q := row], pins[row.pin := pin]);
      OneItem(queue') && ItemsOk(queue', pins', st, m) && TasksOk(tasks, queue', pins', st, m) && Drafts(pins', st)
  {
    forall r | r in queue ensures ItemOk(queue[r], pins[row.pin := pin], st, m) { assert ItemOk(queue[r], pins, st, m); }
    forall t | t in tasks ensures TaskOk(tasks[t], queue[q := row], pins[row.pin := pin], st, m) {
      assert TaskOk(tasks[t], queue, pins, st, m);
    }
  }

  /** A step that touches one item, its pin, its story and its tasks only has to answer for those. */
  lemma RowChange(w: World, w': World, q: Id, p: Id, st: Stories, st': Stories)
    requires Agreed(w, st) && w'.maxAttempts == w.maxAttempts
    requires q in w.db.queue && w.db.queue[q].pin == p && q in w'.db.queue && p in w'.db.pins && p in w.db.pins
    requires w'.db.queue == w.db.queue[q := w'.db.queue[q]] && w'.db.queue[q].pin == p
    requires w'.db.pins == w.db.pins[p := w'.db.pins[p]]
    requires w'.db.pins[p].scope == w.db.pins[p].scope && w'.db.pins[p].status != Draft
    requires forall x :: x != p ==> st'(x) == st(x)
    requires ItemOk(w'.db.queue[q], w'.db.pins, st', w.maxAttempts)
    requires forall t :: t in w'.tasks && w'.tasks[t].item != q ==> t in w.tasks && w.tasks[t] == w'.tasks[t]
    requires forall t :: t in w'.tasks && w'.tasks[t].item == q ==>
               TaskOk(w'.tasks[t], w'.db.queue, w'.db.pins, st', w.maxAttempts)
    requires forall t, u :: t in w'.tasks && u in w'.tasks && w'.tasks[t].item == q && w'.tasks[u].item == q ==> t == u
    ensures Agreed(w', st')
  {
    RowChangeItems(w.db.queue, w.db.pins, q, w'.db.queue[q], w'.db.pins[p], st, st', w.maxAttempts);
    RowChangeTasks(w.tasks, w'.tasks, w.db.queue, w.db.pins, q, w'.db.queue[q], w'.db.pins[p], st, st', w.maxAttempts);
  }

  lemma RowChangeItems(queue: map<Id, PinItem>, pins: map<Id, Pin>, q: Id, row: PinItem, pin: Pin, st: Stories,
                       st': Stories, m: int)
    requires OneItem(queue) && ItemsOk(queue, pins, st, m) && Drafts(pins, st)
    requires q in queue && row.pin == queue[q].pin && row.pin in pins && pin.scope == pins[row.pin].scope
    requires pin.status != Draft && forall x :: x != row.pin ==> st'(x) == st(x)
    requires ItemOk(row, pins[row.pin := pin], st', m)
    ensures OneItem(queue[q := row]) && ItemsOk(queue[q := row], pins[row.pin := pin], st', m)
    ensures Drafts(pins[row.pin := pin], st')
  {
    forall r | r in queue && r != q ensures ItemOk(queue[r], pins[row.pin := pin], st', m) {
      assert ItemOk(queue[r], pins, st, m);
    }
  }

  lemma RowChangeTasks(tasks: map<Id, Task>, tasks': map<Id, Task>, queue: map<Id, PinItem>, pins: map<Id, Pin>,
                       q: Id, row: PinItem, pin: Pin, st: Stories, st': Stories, m: int)
    requires OneTask(tasks) && OneItem(queue) && TasksOk(tasks, queue, pins, st, m)
    requires q in queue && row.pin == queue[q].pin && forall x :: x != row.pin ==> st'(x) == st(x)
    requires forall t :: t in tasks' && tasks'[t].item != q ==> t in tasks && tasks[t] == tasks'[t]
    requires forall t :: t in tasks' && tasks'[t].item == q ==>
               TaskOk(tasks'[t], queue[q := row], pins[row.pin := pin], st', m)
    requires forall t, u :: t in tasks' && u in tasks' && tasks'[t].item == q && tasks'[u].item == q ==> t == u
    ensures OneTask(tasks') && TasksOk(tasks', queue[q := row], pins[row.pin := pin], st', m)
  {
    forall t | t in tasks' ensures TaskOk(tasks'[t], queue[q := row], pins[row.pin := pin], st', m) {
      if tasks'[t].item != q { assert TaskOk(tasks[t], queue, pins, st, m); }
    }
    forall t, u | t in tasks' && u in tasks' && tasks'[t].item == tasks'[u].item ensures t == u {
      if tasks'[t].item != q { assert tasks[t] == tasks'[t] && tasks[u] == tasks'[u]; }
    }
  }

  lemma CancelsUnqueued(w: World, e: Event, st: Stories)
    requires e.Cancel? && Agreed(w, st)
    requires forall q :: q in w.db.queue ==> w.db.queue[q].pin != e.pin
    ensures Agreed(Step(w, e), st)
  {
    var w' := Step(w, e);
    if w' != w {
      assert w'.db.queue == w.db.queue;
      forall t | t in w.tasks ensures w.tasks[t].pin != e.pin {
        assert TaskOk(w.tasks[t], w.db.queue, w.db.pins, st, w.maxAttempts);
      }
    }
  }

  lemma CancelsQueued(w: World, e: Event, q: Id, st: Stories)
    requires e.Cancel? && Agreed(w, st) && q in w.db.queue && w.db.queue[q].pin == e.pin
    ensures Agreed(Step(w, e), st)
  {
    var w' := Step(w, e);
    if w' != w {
      assert ItemOk(w.db.queue[q], w.db.pins, st, w.maxAttempts);
      assert w'.db.queue == w.db.queue[q := CancelRow(w.db.queue[q], e.pin, e.scope, e.at)];
      forall t | t in w.tasks && w.tasks[t].item == q
        ensures TaskOk(w.tasks[t], w'.db.queue, w'.db.pins, st, w.maxAttempts)
      {
        assert TaskOk(w.tasks[t], w.db.queue, w.db.pins, st, w.maxAttempts);
      }
      RowChange(w, w', q, e.pin, st, st);
    }
  }

  lemma CancelAgrees(w: World, e: Event, st: Stories)
    requires e.Cancel? && Agreed(w, st)
    ensures Agreed(Step(w, e), st)
  {
    if q :| q in w.db.queue && w.db.queue[q].pin == e.pin {
      CancelsQueued(w, e, q, st);
    } else {
      CancelsUnqueued(w, e, st);
    }
  }

  /** A claim takes one due item for one new task. */
  lemma ClaimShape(w: World, e: Event)
    requires e.Claim? && Step(w, e) != w
    ensures e.item in w.db.queue && w.db.queue[e.item].state == Queued && e.newTask !in w.tasks
    ensures
      var row := w.db.queue[e.item];
      && Step(w, e).db.queue == w.db.queue[e.item := row.(state := Claimed)]
      && Step(w, e).db.pins == w.db.pins
      && Step(w, e).tasks == w.tasks[e.newTask := Task(e.item, row.pin, row.scope, Waiting)]
      && Step(w, e).maxAttempts == w.maxAttempts
  {
    assert Step(w, e).db.queue == w.db.queue[e.item := w.db.queue[e.item].(state := Claimed)];
  }

  /** A queued item has no task. */
  lemma QueuedIsUnheld(w: World, q: Id, st: Stories)
    requires TasksOk(w.tasks, w.db.queue, w.db.pins, st, w.maxAttempts) && q in w.db.queue && w.db.queue[q].state == Queued
    ensures forall t :: t in w.tasks ==> w.tasks[t].item != q
  {
    forall t | t in w.tasks ensures w.tasks[t].item != q {
      assert TaskOk(w.tasks[t], w.db.queue, w.db.pins, st, w.maxAttempts);
    }
  }

  lemma ClaimAgrees(w: World, e: Event, st: Stories)
    requires e.Claim? && Agreed(w, st)
    ensures Agreed(Step(w, e), st)
  {
    var w' := Step(w, e);
    if w' != w {
      ClaimShape(w, e);
      var q, p := e.item, w.db.queue[e.item].pin;
      assert ItemOk(w.db.queue[q], w.db.pins, st, w.maxAttempts);
      assert w'.db.pins == w.db.pins[p := w.db.pins[p]];
      QueuedIsUnheld(w, q, st);
      RowChange(w, w', q, p, st, st);
    }
  }

  lemma StopAgrees(w: World, e: Event, st: Stories)
    requires e.Stop? || e.SetAccount? || e.SetBoard?
    requires Agreed(w, st)
    ensures Agreed(Step(w, e), st)
  {
  }

  // ---------------------------------------------------------------- the two publishing transactions

  /** A task whose first transaction has nothing to do leaves; a disconnected account fails the pin on the way. */
  lemma SkipAgrees(w: World, e: Event, st: Stories)
    requires e.Begin? && Agreed(w, st) && e.task in w.tasks && w.tasks[e.task].phase.Waiting?
    requires BeginDb(w.db, w.tasks[e.task].pin, w.tasks[e.task].scope, w.tasks[e.task].item).1.Skip?
    ensures Agreed(Step(w, e), st)
    ensures Step(w, e).db.attempts == w.db.attempts
  {
    var w' := Step(w, e);
    var task := w.tasks[e.task];
    assert TaskOk(task, w.db.queue, w.db.pins, st, w.maxAttempts);
    assert ItemOk(w.db.queue[task.item], w.db.pins, st, w.maxAttempts);
    if w'.db.pins == w.db.pins {
      assert w'.db.pins == w.db.pins[task.pin := w.db.pins[task.pin]];
    }
    assert w'.db.queue == w.db.queue[task.item := w.db.queue[task.item]];
    RowChange(w, w', task.item, task.pin, st, st);
  }

  /** What going ahead does to the tables and the tasks. */
  lemma GoneAhead(w: World, e: Event, go: Begun)
    requires e.Begin? && e.task in w.tasks && w.tasks[e.task].phase.Waiting?
    requires go == BeginDb(w.db, w.tasks[e.task].pin, w.tasks[e.task].scope, w.tasks[e.task].item).1 && go.Go?
    ensures
      var (w', task) := (Step(w, e), w.tasks[e.task]);
      && task.pin in w.db.pins && w'.db.pins == w.db.pins[task.pin := w.db.pins[task.pin].(status := Publishing)]
      && (w.db.pins[task.pin].status == PinQueued || w.db.pins[task.pin].status == Publishing)
      && w'.db.queue == w.db.queue && w'.maxAttempts == w.maxAttempts
      && w'.tasks == w.tasks[e.task := task.(phase := InFlight(go))]
      && go.item == (if HasItem(w.db, task.item, task.scope) then Some(task.item) else None)
  {
  }

  /** A task that goes ahead adds the next attempt and takes it along. */
  lemma GoAgrees(w: World, e: Event, st: Stories, st': Stories)
    requires e.Begin? && Agreed(w, st) && e.task in w.tasks && w.tasks[e.task].phase.Waiting?
    requires
      var go := BeginDb(w.db, w.tasks[e.task].pin, w.tasks[e.task].scope, w.tasks[e.task].item).1;
      go.Go? && st'(w.tasks[e.task].pin) == Story(go.number, go.attempt, Pending)
      && go.number == st(w.tasks[e.task].pin).count + 1
    requires forall x :: x != w.tasks[e.task].pin ==> st'(x) == st(x)
    ensures Agreed(Step(w, e), st')
  {
    var go := BeginDb(w.db, w.tasks[e.task].pin, w.tasks[e.task].scope, w.tasks[e.task].item).1;
    GoneAhead(w, e, go);
    GoneAgrees(w, Step(w, e), e.task, go, st, st');
  }

  lemma GoneAgrees(w: World, w': World, t: Id, go: Begun, st: Stories, st': Stories)
    requires Agreed(w, st) && t in w.tasks && w.tasks[t].phase.Waiting? && w.tasks[t].pin in w.db.pins && go.Go?
    requires w.db.pins[w.tasks[t].pin].status == PinQueued || w.db.pins[w.tasks[t].pin].status == Publishing
    requires w'.db.pins == w.db.pins[w.tasks[t].pin := w.db.pins[w.tasks[t].pin].(status := Publishing)]
    requires w'.db.queue == w.db.queue && w'.maxAttempts == w.maxAttempts
    requires w'.tasks == w.tasks[t := w.tasks[t].(phase := InFlight(go))]
    requires go.item == if HasItem(w.db, w.tasks[t].item, w.tasks[t].scope) then Some(w.tasks[t].item) else None
    requires st'(w.tasks[t].pin) == Story(go.number, go.attempt, Pending) && go.number == st(w.tasks[t].pin).count + 1
    requires forall x :: x != w.tasks[t].pin ==> st'(x) == st(x)
    ensures Agreed(w', st')
  {
    var task := w.tasks[t];
    assert TaskOk(task, w.db.queue, w.db.pins, st, w.maxAttempts);
    assert ItemOk(w.db.queue[task.item], w.db.pins, st, w.maxAttempts);
    GoKeepsItem(w.db.queue[task.item], w.db.pins, st, st', w.maxAttempts);
    assert w'.db.queue == w.db.queue[task.item := w.db.queue[task.item]];
    RowChange(w, w', task.item, task.pin, st, st');
  }

  lemma GoKeepsItem(row: PinItem, pins: map<Id, Pin>, st: Stories, st': Stories, m: int)
    requires ItemOk(row, pins, st, m) && MayBegin(st(row.pin), m) && row.state == Claimed
    requires st'(row.pin).count == st(row.pin).count + 1 && st'(row.pin).last == Pending
    ensures ItemOk(row, pins[row.pin := pins[row.pin].(status := Publishing)], st', m)
  {
  }

  /** The remote reply closes the attempt, the pin and the item together. */
  lemma SettleAgrees(w: World, e: Event, st: Stories, st': Stories)
    requires e.Settle? && Agreed(w, st) && e.task in w.tasks && w.tasks[e.task].phase.InFlight?
    requires
      var (p, go) := (w.tasks[e.task].pin, w.tasks[e.task].phase.go);
      go.Go?
      && st'(p).last ==
           (if e.reply.Accepted? then Success else StatusForError(e.reply.retryable, go.number, w.maxAttempts))
      && st'(p).count == st(p).count
    requires forall x :: x != w.tasks[e.task].pin ==> st'(x) == st(x)
    ensures Agreed(Step(w, e), st')
  {
    var w' := Step(w, e);
    var task := w.tasks[e.task];
    assert TaskOk(task, w.db.queue, w.db.pins, st, w.maxAttempts);
    assert ItemOk(w.db.queue[task.item], w.db.pins, st, w.maxAttempts);
    RowChange(w, w', task.item, task.pin, st, st');
  }

  // ---------------------------------------------------------------- the records

  ghost predicate Records(db: Db) {
    AllInOrder(db.attempts, db.pins)
  }

  ghost predicate AllInOrder(attempts: seq<Attempt>, pins: map<Id, Pin>) {
    && (forall i :: 0 <= i < |attempts| ==> attempts[i].pin in pins)
    && (forall p :: p in pins ==> InOrder(attempts, p, pins[p].scope))
  }

  ghost function Told(attempts: seq<Attempt>): Stories {
    (p: Id) => StoryOf(attempts, p)
  }

  ghost predicate Safe(w: World) {
    Records(w.db) && Agreed(w, Told(w.db.attempts))
  }

  lemma NoAttempts(attempts: seq<Attempt>, p: Id)
    requires forall i :: 0 <= i < |attempts| ==> attempts[i].pin != p
    ensures Mine(attempts, p) == []
  {
  }

  /** Other steps leave the records alone; pins only come, in their own scope. */
  lemma OtherStepsKeepPins(w: World, e: Event)
    requires !e.Begin? && !e.Settle?
    ensures Step(w, e).db.attempts == w.db.attempts
    ensures forall p :: p in w.db.pins ==>
              p in Step(w, e).db.pins && Step(w, e).db.pins[p].scope == w.db.pins[p].scope
  {
  }

  lemma OtherStepsKeepRecords(w: World, e: Event)
    requires !e.Begin? && !e.Settle? && Records(w.db)
    ensures Records(Step(w, e).db)
  {
    OtherStepsKeepPins(w, e);
    PinsGrow(w.db.attempts, w.db.pins, Step(w, e).db.pins);
  }

  lemma PinsGrow(attempts: seq<Attempt>, pins: map<Id, Pin>, pins': map<Id, Pin>)
    requires AllInOrder(attempts, pins)
    requires forall p :: p in pins ==> p in pins' && pins'[p].scope == pins[p].scope
    ensures AllInOrder(attempts, pins')
  {
    forall p | p in pins' ensures InOrder(attempts, p, pins'[p].scope) {
      if p in pins { assert InOrder(attempts, p, pins[p].scope); } else { NoAttempts(attempts, p); }
    }
  }

  lemma RecordGrows(attempts: seq<Attempt>, pins: map<Id, Pin>, a: Attempt)
    requires AllInOrder(attempts, pins) && a.pin in pins && a.scope == pins[a.pin].scope
    requires InOrder(attempts + [a], a.pin, a.scope)
    ensures AllInOrder(attempts + [a], pins)
  {
    forall p | p in pins ensures InOrder(attempts + [a], p, pins[p].scope) {
      if p != a.pin {
        assert InOrder(attempts, p, pins[p].scope);
        OtherStoryGrows(attempts, a, p, pins[p].scope);
      }
    }
  }

  lemma RecordEnds(attempts: seq<Attempt>, pins: map<Id, Pin>, i: nat, a: Attempt)
    requires AllInOrder(attempts, pins) && i < |attempts| && a.pin == attempts[i].pin && a.pin in pins
    requires a.scope == pins[a.pin].scope && InOrder(attempts[i := a], a.pin, a.scope)
    ensures AllInOrder(attempts[i := a], pins)
  {
    forall p | p in pins ensures InOrder(attempts[i := a], p, pins[p].scope) {
      if p != a.pin {
        assert InOrder(attempts, p, pins[p].scope);
        OtherStoryEnds(attempts, i, a, p, pins[p].scope);
      }
    }
  }

  lemma AppendTells(attempts: seq<Attempt>, pins: map<Id, Pin>, a: Attempt)
    requires AllInOrder(attempts, pins) && a.pin in pins && a.scope == pins[a.pin].scope
    requires StoryOf(attempts, a.pin).last == Retryable && a.number == LastNumber(attempts, a.pin, a.scope) + 1
    ensures AllInOrder(attempts + [a], pins) && a.number == Told(attempts)(a.pin).count + 1
    ensures Told(attempts + [a])(a.pin) == Story(a.number, |attempts|, a.status)
    ensures forall x :: x != a.pin ==> Told(attempts + [a])(x) == Told(attempts)(x)
  {
    assert InOrder(attempts, a.pin, a.scope);
    LastNumberIsCount(attempts, a.pin, a.scope);
    StoryGrows(attempts, a);
    RecordGrows(attempts, pins, a);
    forall x | x != a.pin ensures StoryOf(attempts + [a], x) == StoryOf(attempts, x) {
      OtherStoryGrows(attempts, a, x, a.scope);
    }
  }

  lemma UpdateTells(attempts: seq<Attempt>, pins: map<Id, Pin>, p: Id, status: AttemptStatus)
    requires AllInOrder(attempts, pins) && p in pins && Told(attempts)(p).count > 0
    ensures
      var place := Told(attempts)(p).place;
      && place < |attempts| && attempts[place].pin == p
      && var after := attempts[place := attempts[place].(status := status)];
      && AllInOrder(after, pins)
      && Told(after)(p) == Told(attempts)(p).(last := status)
      && forall x :: x != p ==> Told(after)(x) == Told(attempts)(x)
  {
    var place := StoryOf(attempts, p).place;
    var places := Mine(attempts, p);
    assert place == places[|places| - 1];
    assert InOrder(attempts, p, pins[p].scope);
    var a := attempts[place].(status := status);
    assert attempts[places[|places| - 1]].scope == pins[p].scope;
    StoryEnds(attempts, place, a);
    RecordEnds(attempts, pins, place, a);
    forall x | x != p ensures StoryOf(attempts[place := a], x) == StoryOf(attempts, x) {
      OtherStoryEnds(attempts, place, a, x, a.scope);
    }
  }

  // ---------------------------------------------------------------- every step, every run

  /** Going ahead appends the next attempt of the pin and keeps every pin in its scope. */
  lemma GoShape(db: Db, pin: Id, s: Scope, item: Id)
    requires BeginDb(db, pin, s, item).1.Go?
    ensures
      var (db', go) := BeginDb(db, pin, s, item);
      && pin in db.pins && db.pins[pin].scope == s
      && db'.attempts == db.attempts + [Attempt(s, pin, go.item, go.number, Pending)]
      && go.attempt == |db.attempts| && go.number == LastNumber(db.attempts, pin, s) + 1
      && forall p :: p in db.pins ==> p in db'.pins && db'.pins[p].scope == db.pins[p].scope
  {
  }

  /** Going ahead appends one record, and only its own pin has a new story. */
  lemma GoTells(db: Db, pin: Id, s: Scope, item: Id)
    requires Records(db) && BeginDb(db, pin, s, item).1.Go? && StoryOf(db.attempts, pin).last == Retryable
    ensures
      var (db', go) := BeginDb(db, pin, s, item);
      var (st, st') := (Told(db.attempts), Told(db'.attempts));
      && Records(db')
      && go.number == st(pin).count + 1
      && st'(pin) == Story(go.number, go.attempt, Pending)
      && forall x :: x != pin ==> st'(x) == st(x)
  {
    var (db', go) := BeginDb(db, pin, s, item);
    GoShape(db, pin, s, item);
    AppendTells(db.attempts, db.pins, Attempt(s, pin, go.item, go.number, Pending));
    PinsGrow(db'.attempts, db.pins, db'.pins);
  }

  lemma SkipTells(db: Db, pin: Id, s: Scope, item: Id)
    requires Records(db) && BeginDb(db, pin, s, item).1.Skip?
    ensures Records(BeginDb(db, pin, s, item).0) && BeginDb(db, pin, s, item).0.attempts == db.attempts
  {
    PinsGrow(db.attempts, db.pins, BeginDb(db, pin, s, item).0.pins);
  }

  lemma SettleTells(db: Db, pin: Id, s: Scope, go: Begun, reply: Reply, max: int, now: int)
    requires Records(db) && go.Go? && pin in db.pins && StoryOf(db.attempts, pin) == Story(go.number, go.attempt, Pending)
    requires go.number > 0
    ensures
      var db' := SettleDb(db, pin, s, go, reply, max, now);
      var (st, st') := (Told(db.attempts), Told(db'.attempts));
      && Records(db')
      && st'(pin) == st(pin).(last := if reply.Accepted? then Success else StatusForError(reply.retryable, go.number, max))
      && forall x :: x != pin ==> st'(x) == st(x)
  {
    var db' := SettleDb(db, pin, s, go, reply, max, now);
    UpdateTells(db.attempts, db.pins, pin,
                if reply.Accepted? then Success else StatusForError(reply.retryable, go.number, max));
    PinsGrow(db'.attempts, db.pins, db'.pins);
  }

  /** A task that has not begun may, if its pin is still to be published. */
  lemma WaiterMayBegin(w: World, t: Id, st: Stories)
    requires Agreed(w, st) && t in w.tasks && w.tasks[t].phase.Waiting?
    requires BeginDb(w.db, w.tasks[t].pin, w.tasks[t].scope, w.tasks[t].item).1.Go?
    ensures st(w.tasks[t].pin).last == Retryable
  {
    assert TaskOk(w.tasks[t], w.db.queue, w.db.pins, st, w.maxAttempts);
    assert ItemOk(w.db.queue[w.tasks[t].item], w.db.pins, st, w.maxAttempts);
  }

  /** What a task in flight holds. */
  lemma FlierHolds(w: World, t: Id, st: Stories)
    requires Agreed(w, st) && t in w.tasks && w.tasks[t].phase.InFlight?
    ensures
      var (task, go) := (w.tasks[t], w.tasks[t].phase.go);
      && go.Go? && go.item == Some(task.item) && task.pin in w.db.pins && task.item in w.db.queue
      && st(task.pin) == Story(go.number, go.attempt, Pending) && go.number > 0
      && w.db.pins[task.pin].status == Publishing
      && w.db.queue[task.item].state == Claimed && w.db.queue[task.item].pin == task.pin
      && w.db.queue[task.item].scope == task.scope
  {
    assert TaskOk(w.tasks[t], w.db.queue, w.db.pins, st, w.maxAttempts);
  }

  /** A task that begins writes what its first transaction writes. */
  lemma BeginWrites(w: World, e: Event)
    requires e.Begin? && e.task in w.tasks && w.tasks[e.task].phase.Waiting?
    ensures Step(w, e).db == BeginDb(w.db, w.tasks[e.task].pin, w.tasks[e.task].scope, w.tasks[e.task].item).0
  {
  }

  lemma GoTold(w: World, e: Event)
    requires e.Begin? && Records(w.db) && e.task in w.tasks && w.tasks[e.task].phase.Waiting?
    requires BeginDb(w.db, w.tasks[e.task].pin, w.tasks[e.task].scope, w.tasks[e.task].item).1.Go?
    requires StoryOf(w.db.attempts, w.tasks[e.task].pin).last == Retryable
    ensures
      var go := BeginDb(w.db, w.tasks[e.task].pin, w.tasks[e.task].scope, w.tasks[e.task].item).1;
      var (p, st, st') := (w.tasks[e.task].pin, Told(w.db.attempts), Told(Step(w, e).db.attempts));
      && Records(Step(w, e).db)
      && go.number == st(p).count + 1 && st'(p) == Story(go.number, go.attempt, Pending)
      && forall x :: x != p ==> st'(x) == st(x)
  {
    BeginWrites(w, e);
    GoTells(w.db, w.tasks[e.task].pin, w.tasks[e.task].scope, w.tasks[e.task].item);
  }

  lemma SkipTold(w: World, e: Event)
    requires e.Begin? && Records(w.db) && e.task in w.tasks && w.tasks[e.task].phase.Waiting?
    requires BeginDb(w.db, w.tasks[e.task].pin, w.tasks[e.task].scope, w.tasks[e.task].item).1.Skip?
    ensures Records(Step(w, e).db) && Step(w, e).db.attempts == w.db.attempts
  {
    BeginWrites(w, e);
    SkipTells(w.db, w.tasks[e.task].pin, w.tasks[e.task].scope, w.tasks[e.task].item);
  }

  lemma BeginKeepsAgreed(w: World, e: Event)
    requires e.Begin? && Safe(w) && e.task in w.tasks && w.tasks[e.task].phase.Waiting?
    ensures Safe(Step(w, e))
  {
    if BeginDb(w.db, w.tasks[e.task].pin, w.tasks[e.task].scope, w.tasks[e.task].item).1.Go? {
      WaiterMayBegin(w, e.task, Told(w.db.attempts));
      GoTold(w, e);
      GoAgrees(w, e, Told(w.db.attempts), Told(Step(w, e).db.attempts));
    } else {
      SkipTold(w, e);
      SkipAgrees(w, e, Told(w.db.attempts));
    }
  }

  /** The last attempt of the task's pin gets the status that the reply gives it. */
  lemma SettleTold(w: World, e: Event)
    requires e.Settle? && Records(w.db) && e.task in w.tasks && w.tasks[e.task].phase.InFlight?
    requires w.tasks[e.task].phase.go.Go? && w.tasks[e.task].phase.go.number > 0 && w.tasks[e.task].pin in w.db.pins
    requires var go := w.tasks[e.task].phase.go;
             StoryOf(w.db.attempts, w.tasks[e.task].pin) == Story(go.number, go.attempt, Pending)
    ensures
      var (p, go) := (w.tasks[e.task].pin, w.tasks[e.task].phase.go);
      var (st, st') := (Told(w.db.attempts), Told(Step(w, e).db.attempts));
      && Records(Step(w, e).db)
      && st'(p) == st(p).(last :=
                     if e.reply.Accepted? then Success else StatusForError(e.reply.retryable, go.number, w.maxAttempts))
      && forall x :: x != p ==> st'(x) == st(x)
  {
    var task := w.tasks[e.task];
    SettleTells(w.db, task.pin, task.scope, task.phase.go, e.reply, w.maxAttempts, e.at);
  }

  lemma SettleKeepsAgreed(w: World, e: Event)
    requires e.Settle? && Safe(w) && e.task in w.tasks && w.tasks[e.task].phase.InFlight?
    ensures Safe(Step(w, e))
  {
    FlierHolds(w, e.task, Told(w.db.attempts));
    SettleTold(w, e);
    SettleAgrees(w, e, Told(w.db.attempts), Told(Step(w, e).db.attempts));
  }

  lemma StepKeeps(w: World, e: Event)
    requires Safe(w)
    ensures Safe(Step(w, e))
  {
    if e.Begin? {
      if e.task in w.tasks && w.tasks[e.task].phase.Waiting? { BeginKeepsAgreed(w, e); }
    } else if e.Settle? {
      if e.task in w.tasks && w.tasks[e.task].phase.InFlight? { SettleKeepsAgreed(w, e); }
    } else {
      OtherStepsKeepRecords(w, e);
      OtherStepsKeepPins(w, e);
      var st := Told(w.db.attempts);
      match e
      case Create(p, _, _, _) => if p !in w.db.pins { NoAttempts(w.db.attempts, p); } CreateAgrees(w, e, st);
      case Enqueue(_, _, _, _) => EnqueueAgrees(w, e, st);
      case Cancel(_, _, _) => CancelAgrees(w, e, st);
      case Claim(_, _, _) => ClaimAgrees(w, e, st);
      case _ => StopAgrees(w, e, st);
    }
  }

  lemma {:induction false} RunKeeps(w: World, es: seq<Event>)
    requires Safe(w)
    ensures Safe(Run(w, es))
    decreases |es|
  {
    if es != [] {
      StepKeeps(w, es[0]);
      RunKeeps(Step(w, es[0]), es[1..]);
    }
  }
}
