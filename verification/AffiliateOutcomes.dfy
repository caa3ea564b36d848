/**
 What deliveries and commission actions do to the ledger, told field by field, with anything else allowed to happen
 between a delivery's reads and its write; and what they do to the dashboard.
 */
module AffiliateOutcomes {
  import opened Prelude
  import opened Affiliate
  import opened Conversions
  import opened Commissions

  // ---------------------------------------------------------------- conversions

  /** What the network's word for a commission means; words it does not know are pending. */
  predicate Reports(text: string, status: Commission) {
    && (text == "approved" <==> status == Approved)
    && (text == "rejected" <==> status == Rejected)
    && (text == "paid" <==> status == Paid)
  }

  predicate InOrder(d: Delivery, limits: Limits) {
    d.trusted && d.attributed && d.terms.cents <= limits.maxCents && d.terms.gross <= limits.maxGross
  }

  ghost predicate InLedger(db: Db, d: Delivery) {
    exists i :: 0 <= i < |db.revenue| && BelongsTo(db.revenue[i], d)
  }

  predicate BelongsTo(row: Row, d: Delivery) {
    row.network == d.network && row.transaction == d.transaction
  }

  lemma InLedgerHasRow(db: Db, d: Delivery)
    ensures InLedger(db, d) <==> HasRow(db.revenue, d.network, d.transaction)
  {
    if HasRow(db.revenue, d.network, d.transaction) {
      var i :| 0 <= i < |db.revenue| && IsRow(db.revenue[i], d.network, d.transaction);
      assert BelongsTo(db.revenue[i], d);
    }
    if i :| 0 <= i < |db.revenue| && BelongsTo(db.revenue[i], d) {
      assert IsRow(db.revenue[i], d.network, d.transaction);
    }
  }

  /** The row of an accepted delivery: attribution, amounts and time are the delivery's, and it is not reconciled. */
  predicate Records(row: Row, d: Delivery) {
    && row.network == d.network && row.transaction == d.transaction && row.terms == d.terms
    && Reports(d.status, row.status) && row.occurredAt == d.occurredAt && row.reconciledAt == None
  }

  predicate AppendedFor(before: Db, after: Db, d: Delivery) {
    && |after.revenue| == |before.revenue| + 1 && after.revenue[..|before.revenue|] == before.revenue
    && Records(after.revenue[|before.revenue|], d) && after.logs == before.logs[d.key := Processed]
  }

  /**
   One delivery in one transaction: untrusted ones are refused; then a logged event is a duplicate; then what is not
   attributed or beyond a limit is refused; then a conversion in the ledger is a duplicate, and logged; the rest is new.
   */
  lemma Processing(db: Db, d: Delivery, limits: Limits)
    ensures
      var (db', outcome) := ProcessDb(db, d, limits);
      if !d.trusted then (db', outcome) == (db, Refused)
      else if d.key in db.logs then (db', outcome) == (Db(db.revenue, db.logs[d.key := Repeated]), Duplicate)
      else if !InOrder(d, limits) then (db', outcome) == (db, Refused)
      else if InLedger(db, d) then (db', outcome) == (Db(db.revenue, db.logs[d.key := Repeated]), Duplicate)
      else outcome == Accepted(|db.revenue|) && AppendedFor(db, db', d)
  {
    InLedgerHasRow(db, d);
  }

  /** Between its steps nobody touches a delivery. */
  predicate StillAt(w: World, w': World, t: TaskId) {
    t in w.tasks && t in w'.tasks && w'.tasks[t] == w.tasks[t]
  }

  /**
   A delivery reads in w and writes in w2. It inserts exactly if it is in order, its event and its conversion were new
   when it read, and both still are.
   */
  lemma InsertsIff(w: World, w2: World, t: TaskId, d: Delivery, limits: Limits)
    requires t !in w.tasks && StillAt(Step(w, Read(t, d), limits), w2, t)
    ensures
      var w3 := Step(w2, Write(t), limits);
      && w3.tasks == w2.tasks - {t}
      && if InOrder(d, limits) && d.key !in w.db.logs && !InLedger(w.db, d) && d.key !in w2.db.logs && !InLedger(w2.db, d)
         then AppendedFor(w2.db, w3.db, d)
         else w3.db.revenue == w2.db.revenue
  {
    InLedgerHasRow(w.db, d);
    InLedgerHasRow(w2.db, d);
  }

  /** What it logs when it inserts nothing. */
  lemma LogsIff(w: World, w2: World, t: TaskId, d: Delivery, limits: Limits)
    requires t !in w.tasks && StillAt(Step(w, Read(t, d), limits), w2, t)
    ensures
      var w3 := Step(w2, Write(t), limits);
      w3.db.revenue == w2.db.revenue ==>
        w3.db.logs ==
        if d.trusted && d.key in w.db.logs && d.key in w2.db.logs then w2.db.logs[d.key := Repeated]
        else if InOrder(d, limits) && d.key !in w.db.logs && InLedger(w.db, d) && d.key !in w2.db.logs
        then w2.db.logs[d.key := Repeated]
        else w2.db.logs
  {
    InLedgerHasRow(w.db, d);
    InLedgerHasRow(w2.db, d);
  }

  /** And what it answers. */
  lemma AnswersIff(w: World, w2: World, t: TaskId, d: Delivery, limits: Limits)
    requires t !in w.tasks && StillAt(Step(w, Read(t, d), limits), w2, t)
    ensures
      WriteDb(w2.db, w2.tasks[t].delivery, w2.tasks[t].decision).1 ==
      if !d.trusted || (d.key !in w.db.logs && !InOrder(d, limits)) then Refused
      else if d.key !in w.db.logs && !InLedger(w.db, d) && d.key !in w2.db.logs && !InLedger(w2.db, d)
      then Accepted(|w2.db.revenue|)
      else Duplicate
  {
    InLedgerHasRow(w.db, d);
    InLedgerHasRow(w2.db, d);
  }

  // ---------------------------------------------------------------- commission actions

  predicate InNiche(db: Db, id: nat, niche: Id) {
    id < |db.revenue| && db.revenue[id].terms.niche == niche
  }

  /** A refused action writes nothing: the row is not there, or not in a status that the action takes. */
  function RefusedMove(db: Db, id: nat, niche: Id): (Db, MoveOutcome) {
    (db, if InNiche(db, id, niche) then Invalid else NotFound)
  }

  /** Approving takes exactly pending rows of the niche. */
  lemma Approving(db: Db, id: nat, niche: Id, now: int)
    ensures
      MoveDb(db, id, niche, Approve, now) ==
      if InNiche(db, id, niche) && db.revenue[id].status == Pending
      then (db.(revenue := db.revenue[id := db.revenue[id].(status := Approved)]), Moved)
      else RefusedMove(db, id, niche)
  {
  }

  /** So does rejecting. */
  lemma Rejecting(db: Db, id: nat, niche: Id, now: int)
    ensures
      MoveDb(db, id, niche, Reject, now) ==
      if InNiche(db, id, niche) && db.revenue[id].status == Pending
      then (db.(revenue := db.revenue[id := db.revenue[id].(status := Rejected)]), Moved)
      else RefusedMove(db, id, niche)
  {
  }

  /** Paying takes exactly approved rows, and notes when. */
  lemma Paying(db: Db, id: nat, niche: Id, now: int)
    ensures
      MoveDb(db, id, niche, MarkPaid, now) ==
      if InNiche(db, id, niche) && db.revenue[id].status == Approved
      then (db.(revenue := db.revenue[id := db.revenue[id].(status := Paid, reconciledAt := Some(now))]), Moved)
      else RefusedMove(db, id, niche)
  {
  }

  /** Any other word is refused before the row is looked for. */
  lemma NoSuchAction(db: Db, id: nat, niche: Id, now: int)
    ensures MoveDb(db, id, niche, UnknownAction, now) == (db, Invalid)
  {
  }

  /** In a run, an action writes what it writes on its own, and a delivery that stops writes nothing. */
  lemma ActionsInRuns(w: World, t: TaskId, id: nat, niche: Id, action: Action, now: int, limits: Limits)
    ensures Step(w, Move(id, niche, action, now), limits) == World(MoveDb(w.db, id, niche, action, now).0, w.tasks)
    ensures Step(w, Stop(t), limits) == World(w.db, w.tasks - {t})
  {
  }

  // ---------------------------------------------------------------- the dashboard

  /** A new row adds its cents to the total and to the sum of its status, in its niche only, and one to the count. */
  lemma RowShown(revenue: seq<Row>, row: Row, clicks: seq<Id>, niche: Id)
    ensures
      var (before, after) := (DashboardOf(revenue, clicks, niche), DashboardOf(revenue + [row], clicks, niche));
      after ==
      if row.terms.niche != niche then before
      else
        var (cents, grown) := (row.terms.cents, before.(total := before.total + row.terms.cents, count := before.count + 1));
        match row.status
        case Pending => grown.(pending := before.pending + cents)
        case Approved => grown.(approved := before.approved + cents)
        case Paid => grown.(paid := before.paid + cents)
        case Rejected => grown
  {
    var all := revenue + [row];
    assert all[..|all| - 1] == revenue && all[|all| - 1] == row;
  }

  lemma NothingShown(clicks: seq<Id>, niche: Id)
    ensures DashboardOf([], clicks, niche) == Dashboard(0, 0, 0, 0, 0, multiset(clicks)[niche])
  {
  }

  lemma ShownBuckets(revenue: seq<Row>, clicks: seq<Id>, niche: Id)
    ensures
      var shown := DashboardOf(revenue, clicks, niche);
      && shown.pending == Bucket(revenue, niche, Pending) && shown.approved == Bucket(revenue, niche, Approved)
      && shown.paid == Bucket(revenue, niche, Paid)
      && SumCents(revenue, niche, Some(Rejected)) == Bucket(revenue, niche, Rejected)
  {
  }

  /** Approving moves the row's cents from the pending to the approved sum; nothing else on the dashboard changes. */
  lemma ApprovedCents(db: Db, id: nat, niche: Id, now: int, clicks: seq<Id>)
    requires InNiche(db, id, niche) && db.revenue[id].status == Pending
    ensures
      var (cents, shown) := (db.revenue[id].terms.cents, DashboardOf(db.revenue, clicks, niche));
      && shown.pending >= cents
      && DashboardOf(MoveDb(db, id, niche, Approve, now).0.revenue, clicks, niche) ==
         shown.(pending := shown.pending - cents, approved := shown.approved + cents)
  {
    Approving(db, id, niche, now);
    TransitionMovesOneRow(db, id, niche, Approve, now);
    ShownBuckets(db.revenue, clicks, niche);
    ShownBuckets(MoveDb(db, id, niche, Approve, now).0.revenue, clicks, niche);
  }

  /** Rejecting takes them off the pending sum and adds them to the rejected one, which the dashboard does not show. */
  lemma RejectedCents(db: Db, id: nat, niche: Id, now: int, clicks: seq<Id>)
    requires InNiche(db, id, niche) && db.revenue[id].status == Pending
    ensures
      var (cents, shown) := (db.revenue[id].terms.cents, DashboardOf(db.revenue, clicks, niche));
      var after := MoveDb(db, id, niche, Reject, now).0.revenue;
      && shown.pending >= cents
      && DashboardOf(after, clicks, niche) == shown.(pending := shown.pending - cents)
      && SumCents(after, niche, Some(Rejected)) == SumCents(db.revenue, niche, Some(Rejected)) + cents
  {
    Rejecting(db, id, niche, now);
    TransitionMovesOneRow(db, id, niche, Reject, now);
    ShownBuckets(db.revenue, clicks, niche);
    ShownBuckets(MoveDb(db, id, niche, Reject, now).0.revenue, clicks, niche);
  }

  /** Paying moves them from the approved to the paid sum. */
  lemma PaidCents(db: Db, id: nat, niche: Id, now: int, clicks: seq<Id>)
    requires InNiche(db, id, niche) && db.revenue[id].status == Approved
    ensures
      var (cents, shown) := (db.revenue[id].terms.cents, DashboardOf(db.revenue, clicks, niche));
      && shown.approved >= cents
      && DashboardOf(MoveDb(db, id, niche, MarkPaid, now).0.revenue, clicks, niche) ==
         shown.(approved := shown.approved - cents, paid := shown.paid + cents)
  {
    Paying(db, id, niche, now);
    TransitionMovesOneRow(db, id, niche, MarkPaid, now);
    ShownBuckets(db.revenue, clicks, niche);
    ShownBuckets(MoveDb(db, id, niche, MarkPaid, now).0.revenue, clicks, niche);
  }

  /** Other niches' dashboards do not change. */
  lemma OthersShown(db: Db, id: nat, niche: Id, action: Action, now: int, other: Id, clicks: seq<Id>)
    requires other != niche
    ensures DashboardOf(MoveDb(db, id, niche, action, now).0.revenue, clicks, other) ==
            DashboardOf(db.revenue, clicks, other)
  {
    var (db', outcome) := MoveDb(db, id, niche, action, now);
    if outcome.Moved? {
      TransitionMovesOneRow(db, id, niche, action, now);
      CountUpdate(db.revenue, id, db'.revenue[id], other);
    }
  }
}
