/**
 Conversion ingestion as a transition system: deliveries that overlap, repeat and come in any order, with
 commission transitions between them. First delivery wins under both keys.
 */
module Conversions {
  import opened Prelude
  import opened Affiliate

  type TaskId = nat

  /** A delivery between its reads and its write. */
  datatype Task = Task(delivery: Delivery, decision: Decision)

  datatype World = World(db: Db, tasks: map<TaskId, Task>)

  datatype Event =
    | Read(task: TaskId, delivery: Delivery)
    | Write(task: TaskId)
    | Stop(task: TaskId)
    | Move(row: nat, niche: Id, action: Action, now: int)

  function Step(w: World, e: Event, limits: Limits): World {
    match e
    case Read(t, d) => if t in w.tasks then w else w.(tasks := w.tasks[t := Task(d, Decide(w.db, d, limits))])
    case Write(t) =>
      if t !in w.tasks then w
      else World(WriteDb(w.db, w.tasks[t].delivery, w.tasks[t].decision).0, w.tasks - {t})
    case Stop(t) => w.(tasks := w.tasks - {t})
    case Move(row, niche, action, now) => w.(db := MoveDb(w.db, row, niche, action, now).0)
  }

  function Run(w: World, es: seq<Event>, limits: Limits): World
    decreases |es|
  {
    if es == [] then w else Run(Step(w, es[0], limits), es[1..], limits)
  }

  const EMPTY := World(Db([], map[]), map[])

  /** A delivery in one transaction is a read directly followed by its write. */
  lemma AtomicIsReadWrite(w: World, t: TaskId, d: Delivery, limits: Limits)
    requires t !in w.tasks
    ensures Run(w, [Read(t, d), Write(t)], limits).db == ProcessDb(w.db, d, limits).0
  {
    var w1 := Step(w, Read(t, d), limits);
    var w2 := Step(w1, Write(t), limits);
    assert [Read(t, d), Write(t)][1..] == [Write(t)] && [Write(t)][1..] == [];
    assert Run(w1, [Write(t)], limits) == Run(w2, [], limits) == w2;
  }

  // ---------------------------------------------------------------- one row per conversion

  ghost predicate OneRowEach(revenue: seq<Row>) {
    forall i, j :: 0 <= i < |revenue| && 0 <= j < |revenue| && SameConversion(revenue[i], revenue[j]) ==> i == j
  }

  predicate SameConversion(a: Row, b: Row) {
    a.network == b.network && a.transaction == b.transaction
  }

  /** The part of a row that is written once. */
  predicate SameEntry(a: Row, b: Row) {
    SameConversion(a, b) && a.terms == b.terms && a.occurredAt == b.occurredAt
  }

  /** Rows are never removed, reordered or rewritten but for their commission status. */
  ghost predicate Extends(before: seq<Row>, after: seq<Row>) {
    |before| <= |after| && forall i :: 0 <= i < |before| ==> SameEntry(before[i], after[i])
  }

  lemma StepExtends(w: World, e: Event, limits: Limits)
    ensures Extends(w.db.revenue, Step(w, e, limits).db.revenue)
    ensures OneRowEach(w.db.revenue) ==> OneRowEach(Step(w, e, limits).db.revenue)
  {
    var (before, after) := (w.db.revenue, Step(w, e, limits).db.revenue);
    if e.Move? && before != after {
      forall i, j | 0 <= i < |after| && 0 <= j < |after| && SameConversion(after[i], after[j])
        ensures OneRowEach(before) ==> i == j
      {
        assert SameConversion(before[i], before[j]);
      }
    }
    if e.Write? && before != after { InsertedOnce(w, e, limits); }
  }

  lemma InsertedOnce(w: World, e: Event, limits: Limits)
    requires e.Write? && Step(w, e, limits).db.revenue != w.db.revenue
    ensures e.task in w.tasks
    ensures
      var (before, after, d) := (w.db.revenue, Step(w, e, limits).db.revenue, w.tasks[e.task].delivery);
      && after == before + [NewRow(d)]
      && !HasRow(before, d.network, d.transaction)
      && (forall i :: 0 <= i < |before| ==> !SameConversion(before[i], NewRow(d)))
  {
    var (before, d) := (w.db.revenue, w.tasks[e.task].delivery);
    forall i | 0 <= i < |before| ensures !SameConversion(before[i], NewRow(d)) {
      assert !IsRow(before[i], d.network, d.transaction);
    }
  }

  lemma {:induction false} RunExtends(w: World, es: seq<Event>, limits: Limits)
    requires OneRowEach(w.db.revenue)
    ensures OneRowEach(Run(w, es, limits).db.revenue)
    ensures Extends(w.db.revenue, Run(w, es, limits).db.revenue)
    decreases |es|
  {
    if es != [] {
      StepExtends(w, es[0], limits);
      RunExtends(Step(w, es[0], limits), es[1..], limits);
    }
  }

  // ---------------------------------------------------------------- the first accepted delivery

  predicate Accepts(w: World, e: Event, network: Id, transaction: string) {
    && e.Write? && e.task in w.tasks
    && w.tasks[e.task].delivery.network == network && w.tasks[e.task].delivery.transaction == transaction
    && WriteDb(w.db, w.tasks[e.task].delivery, w.tasks[e.task].decision).1.Accepted?
  }

  /** The first delivery of a conversion that a run accepts. */
  function FirstAccepted(w: World, es: seq<Event>, limits: Limits, network: Id, transaction: string): Option<Delivery>
    decreases |es|
  {
    if es == [] then None
    else if Accepts(w, es[0], network, transaction) then Some(w.tasks[es[0].task].delivery)
    else FirstAccepted(Step(w, es[0], limits), es[1..], limits, network, transaction)
  }

  /** The row of a conversion, if there is one, with the entry of a delivery. */
  ghost predicate Carries(revenue: seq<Row>, d: Delivery) {
    exists i :: 0 <= i < |revenue| && SameEntry(revenue[i], NewRow(d))
  }

  lemma CarriesLasts(before: seq<Row>, after: seq<Row>, d: Delivery)
    requires Extends(before, after) && Carries(before, d)
    ensures Carries(after, d)
  {
    var i :| 0 <= i < |before| && SameEntry(before[i], NewRow(d));
    assert SameEntry(after[i], NewRow(d));
  }

  lemma NotAcceptedNoRow(w: World, e: Event, limits: Limits, network: Id, transaction: string)
    requires !Accepts(w, e, network, transaction)
    ensures HasRow(Step(w, e, limits).db.revenue, network, transaction) <==> HasRow(w.db.revenue, network, transaction)
  {
    var (before, after) := (w.db.revenue, Step(w, e, limits).db.revenue);
    StepExtends(w, e, limits);
    if HasRow(before, network, transaction) {
      var i :| 0 <= i < |before| && IsRow(before[i], network, transaction);
      assert IsRow(after[i], network, transaction);
    }
    if HasRow(after, network, transaction) {
      var i :| 0 <= i < |after| && IsRow(after[i], network, transaction);
      if e.Write? && before != after { InsertedOnce(w, e, limits); }
      assert i < |before| && IsRow(before[i], network, transaction);
    }
  }

  lemma AcceptedCarried(w: World, e: Event, limits: Limits, network: Id, transaction: string)
    requires Accepts(w, e, network, transaction)
    ensures !HasRow(w.db.revenue, network, transaction)
    ensures Carries(Step(w, e, limits).db.revenue, w.tasks[e.task].delivery)
  {
    var (before, after, d) := (w.db.revenue, Step(w, e, limits).db.revenue, w.tasks[e.task].delivery);
    assert after == before + [NewRow(d)];
    assert SameEntry(after[|before|], NewRow(d));
  }

  lemma {:induction false} FirstAcceptedFrom(w: World, es: seq<Event>, limits: Limits, network: Id, transaction: string)
    requires OneRowEach(w.db.revenue) && !HasRow(w.db.revenue, network, transaction)
    ensures
      var first := FirstAccepted(w, es, limits, network, transaction);
      var revenue := Run(w, es, limits).db.revenue;
      && (HasRow(revenue, network, transaction) <==> first.Some?)
      && (first.Some? ==>
            first.value.network == network && first.value.transaction == transaction && Carries(revenue, first.value))
    decreases |es|
  {
    if es != [] {
      var w' := Step(w, es[0], limits);
      StepExtends(w, es[0], limits);
      if Accepts(w, es[0], network, transaction) {
        AcceptedCarried(w, es[0], limits, network, transaction);
        RunExtends(w', es[1..], limits);
        CarriesLasts(w'.db.revenue, Run(w', es[1..], limits).db.revenue, w.tasks[es[0].task].delivery);
        CarriesHasRow(Run(w', es[1..], limits).db.revenue, w.tasks[es[0].task].delivery);
      } else {
        NotAcceptedNoRow(w, es[0], limits, network, transaction);
        FirstAcceptedFrom(w', es[1..], limits, network, transaction);
      }
    }
  }

  lemma CarriesHasRow(revenue: seq<Row>, d: Delivery)
    requires Carries(revenue, d)
    ensures HasRow(revenue, d.network, d.transaction)
  {
    var i :| 0 <= i < |revenue| && SameEntry(revenue[i], NewRow(d));
    assert IsRow(revenue[i], d.network, d.transaction);
  }

  /**
   First delivery wins: whatever overlaps, repeats and reorderings a run has, the ledger holds a conversion exactly
   when some delivery of it was accepted, in one row, with the amounts, attribution and time of the first.
   */
  lemma FirstDeliveryWins(es: seq<Event>, limits: Limits, network: Id, transaction: string)
    ensures
      var first := FirstAccepted(EMPTY, es, limits, network, transaction);
      var revenue := Run(EMPTY, es, limits).db.revenue;
      && (forall i, j ::
            && 0 <= i < |revenue| && 0 <= j < |revenue|
            && IsRow(revenue[i], network, transaction) && IsRow(revenue[j], network, transaction)
            ==> i == j)
      && (HasRow(revenue, network, transaction) <==> first.Some?)
      && (forall i :: 0 <= i < |revenue| && IsRow(revenue[i], network, transaction) ==>
            first.Some? && SameEntry(revenue[i], NewRow(first.value)))
  {
    FirstAcceptedFrom(EMPTY, es, limits, network, transaction);
    RunExtends(EMPTY, es, limits);
    var first := FirstAccepted(EMPTY, es, limits, network, transaction);
    var revenue := Run(EMPTY, es, limits).db.revenue;
    forall i, j | 0 <= i < |revenue| && 0 <= j < |revenue| && IsRow(revenue[i], network, transaction)
                  && IsRow(revenue[j], network, transaction)
      ensures i == j
    {
      assert SameConversion(revenue[i], revenue[j]);
    }
    forall i | 0 <= i < |revenue| && IsRow(revenue[i], network, transaction)
      ensures first.Some? && SameEntry(revenue[i], NewRow(first.value))
    {
      var j :| 0 <= j < |revenue| && SameEntry(revenue[j], NewRow(first.value));
      assert SameConversion(revenue[i], revenue[j]);
    }
  }

  // ---------------------------------------------------------------- redelivery

  /** Handled: the event is logged, or the conversion is in the ledger. */
  predicate Handled(db: Db, d: Delivery) {
    d.key in db.logs || HasRow(db.revenue, d.network, d.transaction)
  }

  lemma HandledLasts(w: World, e: Event, limits: Limits, d: Delivery)
    requires Handled(w.db, d)
    ensures Handled(Step(w, e, limits).db, d)
  {
    if HasRow(w.db.revenue, d.network, d.transaction) {
      var i :| 0 <= i < |w.db.revenue| && IsRow(w.db.revenue[i], d.network, d.transaction);
      StepExtends(w, e, limits);
      assert IsRow(Step(w, e, limits).db.revenue[i], d.network, d.transaction);
    }
  }

  lemma {:induction false} HandledStays(w: World, es: seq<Event>, limits: Limits, d: Delivery)
    requires Handled(w.db, d)
    ensures Handled(Run(w, es, limits).db, d)
    decreases |es|
  {
    if es != [] {
      HandledLasts(w, es[0], limits, d);
      HandledStays(Step(w, es[0], limits), es[1..], limits, d);
    }
  }

  /** A task that found its event logged, or its conversion in the ledger, is right about it for good. */
  ghost predicate Informed(w: World) {
    forall t :: t in w.tasks && (w.tasks[t].decision.Remark? || w.tasks[t].decision.LogRepeat?) ==>
      Handled(w.db, w.tasks[t].delivery)
  }

  lemma StepKeepsInformed(w: World, e: Event, limits: Limits)
    requires Informed(w)
    ensures Informed(Step(w, e, limits))
  {
    var w' := Step(w, e, limits);
    forall t | t in w'.tasks && (w'.tasks[t].decision.Remark? || w'.tasks[t].decision.LogRepeat?)
      ensures Handled(w'.db, w'.tasks[t].delivery)
    {
      if t in w.tasks { HandledLasts(w, e, limits, w'.tasks[t].delivery); }
    }
  }

  lemma {:induction false} RunKeepsInformed(w: World, es: seq<Event>, limits: Limits)
    requires Informed(w)
    ensures Informed(Run(w, es, limits))
    decreases |es|
  {
    if es != [] {
      StepKeepsInformed(w, es[0], limits);
      RunKeepsInformed(Step(w, es[0], limits), es[1..], limits);
    }
  }

  lemma WriteHandles(db: Db, d: Delivery, decision: Decision)
    requires !decision.Refuse? && (decision.Insert? || Handled(db, d))
    ensures Handled(WriteDb(db, d, decision).0, d)
  {
    if WriteDb(db, d, decision).1.Accepted? {
      assert d.key in WriteDb(db, d, decision).0.logs;
    }
  }

  /** In every run, a write that answers accepted or duplicate leaves its delivery handled, however old its reads. */
  lemma AnsweredIsHandled(es: seq<Event>, limits: Limits, t: TaskId)
    requires
      var w := Run(EMPTY, es, limits);
      t in w.tasks && !WriteDb(w.db, w.tasks[t].delivery, w.tasks[t].decision).1.Refused?
    ensures
      var w := Run(EMPTY, es, limits);
      Handled(Step(w, Write(t), limits).db, w.tasks[t].delivery)
  {
    RunKeepsInformed(EMPTY, es, limits);
    var w := Run(EMPTY, es, limits);
    WriteHandles(w.db, w.tasks[t].delivery, w.tasks[t].decision);
  }

  /**
   Once a delivery is handled, no redelivery of it, whenever it read and whatever it decided, changes the revenue
   ledger.
   */
  lemma RedeliveryChangesNothing(w: World, es: seq<Event>, limits: Limits, e: Event)
    requires e.Write? && e.task in Run(w, es, limits).tasks
    requires Handled(w.db, Run(w, es, limits).tasks[e.task].delivery)
    ensures Step(Run(w, es, limits), e, limits).db.revenue == Run(w, es, limits).db.revenue
  {
    HandledStays(w, es, limits, Run(w, es, limits).tasks[e.task].delivery);
  }
}
