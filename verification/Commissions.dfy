/** Money in the revenue ledger: the dashboard's sums, and what transitions do to them. */
module Commissions {
  import opened Prelude
  import opened Affiliate
  import opened Conversions

  function Bucket(revenue: seq<Row>, niche: Id, status: Commission): nat {
    SumCents(revenue, niche, Some(status))
  }

  /** The total is the sum over the four buckets. */
  lemma {:induction false} TotalIsSumOfBuckets(revenue: seq<Row>, niche: Id)
    ensures SumCents(revenue, niche, None) ==
            Bucket(revenue, niche, Pending) + Bucket(revenue, niche, Approved) + Bucket(revenue, niche, Paid)
            + Bucket(revenue, niche, Rejected)
    decreases |revenue|
  {
    if revenue != [] { TotalIsSumOfBuckets(revenue[..|revenue| - 1], niche); }
  }

  /** The three buckets on the dashboard account for its total exactly when no rejected commission has cents. */
  lemma DashboardAddsUp(revenue: seq<Row>, clicks: seq<Id>, niche: Id)
    ensures
      var shown := DashboardOf(revenue, clicks, niche);
      && shown.total == shown.approved + shown.pending + shown.paid + Bucket(revenue, niche, Rejected)
      && (shown.total == shown.approved + shown.pending + shown.paid <==>
          forall i :: 0 <= i < |revenue| && Counts(revenue[i], niche, Some(Rejected)) ==> revenue[i].terms.cents == 0)
  {
    TotalIsSumOfBuckets(revenue, niche);
    ZeroBucket(revenue, niche, Some(Rejected));
  }

  lemma {:induction false} ZeroBucket(revenue: seq<Row>, niche: Id, status: Option<Commission>)
    ensures SumCents(revenue, niche, status) == 0 <==>
            forall i :: 0 <= i < |revenue| && Counts(revenue[i], niche, status) ==> revenue[i].terms.cents == 0
    decreases |revenue|
  {
    if revenue != [] {
      var n := |revenue| - 1;
      ZeroBucket(revenue[..n], niche, status);
      assert forall i :: 0 <= i < n ==> revenue[..n][i] == revenue[i];
    }
  }

  lemma {:induction false} SumUpdate(revenue: seq<Row>, id: nat, row: Row, niche: Id, status: Option<Commission>)
    requires id < |revenue|
    ensures SumCents(revenue[id := row], niche, status) ==
            SumCents(revenue, niche, status) - CentsOf(revenue[id], niche, status) + CentsOf(row, niche, status)
    decreases |revenue|
  {
    var n := |revenue| - 1;
    if id == n {
      assert revenue[id := row][..n] == revenue[..n];
    } else {
      SumUpdate(revenue[..n], id, row, niche, status);
      assert revenue[id := row][..n] == revenue[..n][id := row];
    }
  }

  lemma {:induction false} CountUpdate(revenue: seq<Row>, id: nat, row: Row, niche: Id)
    requires id < |revenue| && row.terms == revenue[id].terms
    ensures CountRows(revenue[id := row], niche) == CountRows(revenue, niche)
    decreases |revenue|
  {
    var n := |revenue| - 1;
    if id == n {
      assert revenue[id := row][..n] == revenue[..n];
    } else {
      CountUpdate(revenue[..n], id, row, niche);
      assert revenue[id := row][..n] == revenue[..n][id := row];
    }
  }

  /** A transition moves one row's cents from its old bucket to its new one, in its own niche; nothing else moves. */
  lemma TransitionMovesOneRow(db: Db, id: nat, niche: Id, action: Action, now: int)
    requires MoveDb(db, id, niche, action, now).1.Moved?
    ensures
      var after := MoveDb(db, id, niche, action, now).0.revenue;
      var (from, to, cents) := (db.revenue[id].status, TargetOf(action).value, db.revenue[id].terms.cents);
      && from != to
      && Bucket(after, niche, from) == Bucket(db.revenue, niche, from) - cents
      && Bucket(after, niche, to) == Bucket(db.revenue, niche, to) + cents
      && (forall s :: s != from && s != to ==> Bucket(after, niche, s) == Bucket(db.revenue, niche, s))
      && SumCents(after, niche, None) == SumCents(db.revenue, niche, None)
      && CountRows(after, niche) == CountRows(db.revenue, niche)
      && (forall n, s :: n != niche ==> SumCents(after, n, s) == SumCents(db.revenue, n, s))
  {
    var row := MovedRow(db.revenue[id], TargetOf(action).value, now);
    forall n, s ensures SumCents(db.revenue[id := row], n, s) ==
                        SumCents(db.revenue, n, s) - CentsOf(db.revenue[id], n, s) + CentsOf(row, n, s)
    {
      SumUpdate(db.revenue, id, row, n, s);
    }
    CountUpdate(db.revenue, id, row, niche);
  }

  /** Paid and rejected commissions stay as they are. */
  lemma FinalCommissionStays(w: World, e: Event, limits: Limits, id: nat)
    requires id < |w.db.revenue| && (w.db.revenue[id].status.Paid? || w.db.revenue[id].status.Rejected?)
    ensures id < |Step(w, e, limits).db.revenue| && Step(w, e, limits).db.revenue[id] == w.db.revenue[id]
  {
  }

  // ---------------------------------------------------------------- every reachable ledger

  ghost predicate AllWithinLimits(revenue: seq<Row>, limits: Limits) {
    forall i :: 0 <= i < |revenue| ==> WithinLimits(revenue[i].terms, limits)
  }

  ghost predicate TasksWithinLimits(tasks: map<TaskId, Task>, limits: Limits) {
    forall t :: t in tasks && tasks[t].decision.Insert? ==> WithinLimits(tasks[t].delivery.terms, limits)
  }

  lemma StepWithinLimits(w: World, e: Event, limits: Limits)
    requires AllWithinLimits(w.db.revenue, limits) && TasksWithinLimits(w.tasks, limits)
    ensures AllWithinLimits(Step(w, e, limits).db.revenue, limits) && TasksWithinLimits(Step(w, e, limits).tasks, limits)
  {
  }

  lemma {:induction false} RunWithinLimits(w: World, es: seq<Event>, limits: Limits)
    requires AllWithinLimits(w.db.revenue, limits) && TasksWithinLimits(w.tasks, limits)
    ensures AllWithinLimits(Run(w, es, limits).db.revenue, limits)
    decreases |es|
  {
    if es != [] {
      StepWithinLimits(w, es[0], limits);
      RunWithinLimits(Step(w, es[0], limits), es[1..], limits);
    }
  }

  lemma {:induction false} TotalBounded(revenue: seq<Row>, niche: Id, limits: Limits)
    requires AllWithinLimits(revenue, limits)
    ensures SumCents(revenue, niche, None) <= CountRows(revenue, niche) * limits.maxCents
    decreases |revenue|
  {
    if revenue != [] {
      var rest := revenue[..|revenue| - 1];
      TotalBounded(rest, niche, limits);
      assert (CountRows(rest, niche) + 1) * limits.maxCents == CountRows(rest, niche) * limits.maxCents + limits.maxCents;
    }
  }

  /** In every reachable ledger the dashboard's total is the sum of its buckets and is bounded by its count. */
  lemma CommissionConserved(es: seq<Event>, limits: Limits, clicks: seq<Id>, niche: Id)
    ensures
      var revenue := Run(EMPTY, es, limits).db.revenue;
      var shown := DashboardOf(revenue, clicks, niche);
      && shown.total == shown.approved + shown.pending + shown.paid + Bucket(revenue, niche, Rejected)
      && shown.total <= shown.count * limits.maxCents
  {
    var revenue := Run(EMPTY, es, limits).db.revenue;
    RunWithinLimits(EMPTY, es, limits);
    TotalIsSumOfBuckets(revenue, niche);
    TotalBounded(revenue, niche, limits);
  }

  /** A conversion that its network reports as rejected, with one cent. */
  function RejectedReport(niche: Id): Delivery {
    Delivery(0, LogKey("network", "1"), "t", true, true, Terms(niche, 0, None, 0, 1, "USD"), "rejected", 0)
  }

  lemma RejectedArrives(limits: Limits, niche: Id)
    requires limits.maxCents > 0
    ensures Run(EMPTY, [Read(0, RejectedReport(niche)), Write(0)], limits).db.revenue == [NewRow(RejectedReport(niche))]
  {
    AtomicIsReadWrite(EMPTY, 0, RejectedReport(niche), limits);
    assert Decide(EMPTY.db, RejectedReport(niche), limits) == Insert;
  }

  lemma OneRejectedRow(row: Row, clicks: seq<Id>, niche: Id)
    requires row.status == Rejected && row.terms.niche == niche && row.terms.cents > 0
    ensures var shown := DashboardOf([row], clicks, niche); shown.total > shown.approved + shown.pending + shown.paid
  {
    forall status ensures SumCents([row], niche, status) == CentsOf(row, niche, status) {
      assert [row][..|[row]| - 1] == [] && SumCents([], niche, status) == 0;
    }
  }

  /** Such a report reaches the ledger, and the dashboard's total then exceeds the three buckets it shows. */
  lemma RejectedCentsAreShown(limits: Limits, clicks: seq<Id>, niche: Id)
    requires limits.maxCents > 0
    ensures exists es ::
      var shown := DashboardOf(Run(EMPTY, es, limits).db.revenue, clicks, niche);
      shown.total > shown.approved + shown.pending + shown.paid
  {
    RejectedArrives(limits, niche);
    OneRejectedRow(NewRow(RejectedReport(niche)), clicks, niche);
  }

  // ---------------------------------------------------------------- reconciliation

  ghost predicate ReconciledArePaid(revenue: seq<Row>) {
    forall i :: 0 <= i < |revenue| && revenue[i].reconciledAt.Some? ==> revenue[i].status.Paid?
  }

  lemma StepReconciledArePaid(w: World, e: Event, limits: Limits)
    requires ReconciledArePaid(w.db.revenue)
    ensures ReconciledArePaid(Step(w, e, limits).db.revenue)
  {
  }

  /** In every run only paid rows carry a reconciliation time. */
  lemma {:induction false} RunReconciledArePaid(w: World, es: seq<Event>, limits: Limits)
    requires ReconciledArePaid(w.db.revenue)
    ensures ReconciledArePaid(Run(w, es, limits).db.revenue)
    decreases |es|
  {
    if es != [] {
      StepReconciledArePaid(w, es[0], limits);
      RunReconciledArePaid(Step(w, es[0], limits), es[1..], limits);
    }
  }
}
