/** Conversion ingestion, the revenue ledger and the commission lifecycle of the affiliate service. */
module Affiliate {
  import opened Prelude

  type Id = nat

  datatype Commission = Pending | Approved | Paid | Rejected

  datatype Terms = Terms(niche: Id, link: Id, click: Option<Id>, gross: nat, cents: nat, currency: string)

  /** A revenue row; its place in the ledger is its id. */
  datatype Row = Row(
    network: Id, transaction: string, terms: Terms, status: Commission, occurredAt: int, reconciledAt: Option<int>)

  datatype LogKey = LogKey(source: string, eventId: string)
  datatype LogStatus = Processed | Repeated

  datatype Db = Db(revenue: seq<Row>, logs: map<LogKey, LogStatus>)

  datatype Limits = Limits(maxCents: nat, maxGross: nat)

  /** A webhook delivery: trusted when network, signature and payload are in order, attributed when its click token is. */
  datatype Delivery = Delivery(
    network: Id, key: LogKey, transaction: string, trusted: bool, attributed: bool, terms: Terms, status: string,
    occurredAt: int)

  datatype Outcome = Accepted(row: nat) | Duplicate | Refused

  // ---------------------------------------------------------------- ingestion

  function CommissionFor(status: string): Commission {
    if status == "approved" then Approved
    else if status == "rejected" then Rejected
    else if status == "paid" then Paid
    else Pending
  }

  predicate HasRow(revenue: seq<Row>, network: Id, transaction: string) {
    exists i :: 0 <= i < |revenue| && IsRow(revenue[i], network, transaction)
  }

  predicate IsRow(row: Row, network: Id, transaction: string) {
    row.network == network && row.transaction == transaction
  }

  predicate WithinLimits(t: Terms, limits: Limits) {
    t.cents <= limits.maxCents && t.gross <= limits.maxGross
  }

  function NewRow(d: Delivery): Row {
    Row(d.network, d.transaction, d.terms, CommissionFor(d.status), d.occurredAt, None)
  }

  /** What a delivery decides from what it reads. */
  datatype Decision = Refuse | Remark | LogRepeat | Insert

  function Decide(db: Db, d: Delivery, limits: Limits): Decision {
    if !d.trusted then Refuse
    else if d.key in db.logs then Remark
    else if !d.attributed || !WithinLimits(d.terms, limits) then Refuse
    else if HasRow(db.revenue, d.network, d.transaction) then LogRepeat
    else Insert
  }

  /** What is written, under the two unique keys: a violation rolls everything back and counts as a duplicate. */
  function WriteDb(db: Db, d: Delivery, decision: Decision): (Db, Outcome) {
    match decision
    case Refuse => (db, Refused)
    case Remark => (if d.key in db.logs then db.(logs := db.logs[d.key := Repeated]) else db, Duplicate)
    case LogRepeat => (if d.key in db.logs then db else db.(logs := db.logs[d.key := Repeated]), Duplicate)
    case Insert =>
      if HasRow(db.revenue, d.network, d.transaction) || d.key in db.logs then (db, Duplicate)
      else (Db(db.revenue + [NewRow(d)], db.logs[d.key := Processed]), Accepted(|db.revenue|))
  }

  function ProcessDb(db: Db, d: Delivery, limits: Limits): (Db, Outcome) {
    WriteDb(db, d, Decide(db, d, limits))
  }

  // ---------------------------------------------------------------- commissions

  datatype Action = Approve | Reject | MarkPaid | UnknownAction

  function TargetOf(action: Action): Option<Commission> {
    match action
    case Approve => Some(Approved)
    case Reject => Some(Rejected)
    case MarkPaid => Some(Paid)
    case UnknownAction => None
  }

  predicate CanMove(current: Commission, target: Commission) {
    (current.Pending? && (target.Approved? || target.Rejected?)) || (current.Approved? && target.Paid?)
  }

  datatype MoveOutcome = Moved | NotFound | Invalid

  function MovedRow(row: Row, target: Commission, now: int): Row {
    row.(status := target, reconciledAt := if target.Paid? then Some(now) else row.reconciledAt)
  }

  function MoveDb(db: Db, id: nat, niche: Id, action: Action, now: int): (Db, MoveOutcome) {
    var target := TargetOf(action);
    if target.None? then (db, Invalid)
    else if id >= |db.revenue| || db.revenue[id].terms.niche != niche then (db, NotFound)
    else if !CanMove(db.revenue[id].status, target.value) then (db, Invalid)
    else (db.(revenue := db.revenue[id := MovedRow(db.revenue[id], target.value, now)]), Moved)
  }

  // ---------------------------------------------------------------- sums

  predicate Counts(row: Row, niche: Id, status: Option<Commission>) {
    row.terms.niche == niche && (status.Some? ==> row.status == status.value)
  }

  function CentsOf(row: Row, niche: Id, status: Option<Commission>): nat {
    if Counts(row, niche, status) then row.terms.cents else 0
  }

  function SumCents(revenue: seq<Row>, niche: Id, status: Option<Commission>): nat {
    if revenue == [] then 0
    else SumCents(revenue[..|revenue| - 1], niche, status) + CentsOf(revenue[|revenue| - 1], niche, status)
  }

  function CountRows(revenue: seq<Row>, niche: Id): nat {
    if revenue == [] then 0
    else CountRows(revenue[..|revenue| - 1], niche) + if revenue[|revenue| - 1].terms.niche == niche then 1 else 0
  }

  datatype Dashboard = Dashboard(total: nat, approved: nat, pending: nat, paid: nat, count: nat, clicks: nat)

  /** Of the recorded clicks only the niche matters here. */
  function DashboardOf(revenue: seq<Row>, clicks: seq<Id>, niche: Id): Dashboard {
    Dashboard(
      SumCents(revenue, niche, None),
      SumCents(revenue, niche, Some(Approved)),
      SumCents(revenue, niche, Some(Pending)),
      SumCents(revenue, niche, Some(Paid)),
      CountRows(revenue, niche),
      multiset(clicks)[niche])
  }

  // ---------------------------------------------------------------- the service

  class AffiliateService {
    var revenue: seq<Row>
    var logs: map<LogKey, LogStatus>
    var clicks: seq<Id>
    const limits: Limits

    constructor (limits: Limits)
      ensures revenue == [] && logs == map[] && clicks == [] && this.limits == limits
    {
      revenue, logs, clicks := [], map[], [];
      this.limits := limits;
    }

    ghost function Tables(): Db
      reads this
    {
      Db(revenue, logs)
    }

    method GetByNetworkTransaction(network: Id, transaction: string) returns (found: bool)
      ensures found <==> HasRow(revenue, network, transaction)
    {
      for i := 0 to |revenue|
        invariant forall j :: 0 <= j < i ==> !IsRow(revenue[j], network, transaction)
      {
        if revenue[i].network == network && revenue[i].transaction == transaction { return true; }
      }
      return false;
    }

    /** One delivery in one transaction. */
    method ProcessConversion(d: Delivery) returns (outcome: Outcome)
      modifies this`revenue, this`logs
      ensures (Tables(), outcome) == ProcessDb(old(Tables()), d, limits)
    {
      if !d.trusted { return Refused; }
      if d.key in logs {
        logs := logs[d.key := Repeated];
        return Duplicate;
      }
      if !d.attributed { return Refused; }
      if d.terms.cents > limits.maxCents { return Refused; }
      if d.terms.gross > limits.maxGross { return Refused; }
      var status := CommissionFor(d.status);
      var existing := GetByNetworkTransaction(d.network, d.transaction);
      if existing {
        logs := logs[d.key := Repeated];
        return Duplicate;
      }
      revenue := revenue + [Row(d.network, d.transaction, d.terms, status, d.occurredAt, None)];
      logs := logs[d.key := Processed];
      return Accepted(|revenue| - 1);
    }

    method TransitionCommission(id: nat, niche: Id, action: Action, now: int) returns (outcome: MoveOutcome)
      modifies this`revenue
      ensures (Tables(), outcome) == MoveDb(old(Tables()), id, niche, action, now)
      ensures
        var found := id < |old(revenue)| && old(revenue)[id].terms.niche == niche;
        outcome ==
        if action == UnknownAction then Invalid
        else if !found then NotFound
        else if old(revenue)[id].status == (if action == MarkPaid then Approved else Pending) then Moved
        else Invalid
      ensures
        var row := if id < |old(revenue)| then Some(old(revenue)[id]) else None;
        revenue ==
        if outcome != Moved || row.None? then old(revenue)
        else match action
             case Approve => old(revenue)[id := row.value.(status := Approved)]
             case Reject => old(revenue)[id := row.value.(status := Rejected)]
             case MarkPaid => old(revenue)[id := row.value.(status := Paid, reconciledAt := Some(now))]
             case UnknownAction => old(revenue)
    {
      var target := TargetOf(action);
      if target.None? { return Invalid; }
      if id >= |revenue| || revenue[id].terms.niche != niche { return NotFound; }
      if !CanMove(revenue[id].status, target.value) { return Invalid; }
      var row := revenue[id].(status := target.value);
      if target.value == Paid { row := row.(reconciledAt := Some(now)); }
      revenue := revenue[id := row];
      return Moved;
    }

    method SumCommissionCents(niche: Id, status: Option<Commission>) returns (sum: nat)
      ensures sum == SumCents(revenue, niche, status)
    {
      sum := 0;
      for i := 0 to |revenue|
        invariant sum == SumCents(revenue[..i], niche, status)
      {
        assert revenue[..i + 1][..i] == revenue[..i];
        if Counts(revenue[i], niche, status) { sum := sum + revenue[i].terms.cents; }
      }
      assert revenue[..|revenue|] == revenue;
    }

    method CountByNiche(niche: Id) returns (count: nat)
      ensures count == CountRows(revenue, niche)
    {
      count := 0;
      for i := 0 to |revenue|
        invariant count == CountRows(revenue[..i], niche)
      {
        assert revenue[..i + 1][..i] == revenue[..i];
        if revenue[i].terms.niche == niche { count := count + 1; }
      }
      assert revenue[..|revenue|] == revenue;
    }

    method CountClicks(niche: Id) returns (count: nat)
      ensures count == multiset(clicks)[niche]
    {
      count := 0;
      for i := 0 to |clicks|
        invariant count == multiset(clicks[..i])[niche]
      {
        assert clicks[..i + 1] == clicks[..i] + [clicks[i]];
        if clicks[i] == niche { count := count + 1; }
      }
      assert clicks[..|clicks|] == clicks;
    }

    method RevenueDashboard(niche: Id) returns (shown: Dashboard)
      ensures shown == DashboardOf(revenue, clicks, niche)
      ensures shown.total == SumCents(revenue, niche, None) && shown.approved == SumCents(revenue, niche, Some(Approved))
      ensures shown.pending == SumCents(revenue, niche, Some(Pending)) && shown.paid == SumCents(revenue, niche, Some(Paid))
      ensures shown.clicks == multiset(clicks)[niche]
    {
      var total := SumCommissionCents(niche, None);
      var approved := SumCommissionCents(niche, Some(Approved));
      var pending := SumCommissionCents(niche, Some(Pending));
      var paid := SumCommissionCents(niche, Some(Paid));
      var count := CountByNiche(niche);
      var clicked := CountClicks(niche);
      shown := Dashboard(total, approved, pending, paid, count, clicked);
    }
  }
}
