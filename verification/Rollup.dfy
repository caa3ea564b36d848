/**
 The append-only event ledger and the daily rollups: three keyed read models and a snapshot of their totals, which
 every rollup brings into agreement with the events of its (niche, day).
 */
module Rollup {
  import opened Prelude
  import opened AnalyticsEvents
  import Aggregation

  /** Seconds in a day; the day of an instant counts from the epoch. */
  const DAY := 86400

  /** The key of a read-model row: one cell of one niche on one day. */
  datatype Cell<K> = Cell(niche: Id, day: int, key: K)

  type Table<K(==), V> = map<Cell<K>, V>

  datatype Db = Db(
    ledger: seq<Event>,
    traffic: Table<TrafficKey, TrafficRow>,
    visitors: Table<VisitorKey, VisitorRow>,
    metrics: Table<MetricKey, real>,
    snapshots: Table<SnapshotKind, Snapshot>)

  datatype SnapshotKind = Daily | Weekly

  datatype IngestOutcome = Accepted | Duplicate | Rejected

  // ---------------------------------------------------------------- the ledger

  predicate Recorded(ledger: seq<Event>, eventId: string) {
    exists i :: 0 <= i < |ledger| && ledger[i].eventId == eventId
  }

  /** What the public collector takes; domain events come in by their own route. */
  predicate Collectable(kind: Kind) {
    !kind.RevenueAttributed? && !kind.PinPublished?
  }

  predicate Internal(kind: Kind) {
    kind.AffiliateClick? || kind.RevenueAttributed? || kind.PinPublished? || kind.Other?
  }

  function AppendDb(db: Db, e: Event): (Db, IngestOutcome) {
    if Recorded(db.ledger, e.eventId) then (db, Duplicate) else (db.(ledger := db.ledger + [e]), Accepted)
  }

  function CollectDb(db: Db, e: Event, active: bool, traitsAllowed: bool): (Db, IngestOutcome) {
    if !active || !Collectable(e.kind) || !traitsAllowed then (db, Rejected) else AppendDb(db, e)
  }

  /** A domain event carries no session, user or referrer. */
  function Anonymous(e: Event): Event {
    e.(session := "", user := "", referrer := "")
  }

  function DomainEventDb(db: Db, e: Event, active: bool): (Db, IngestOutcome) {
    if !Internal(e.kind) || !active then (db, Rejected) else AppendDb(db, Anonymous(e))
  }

  // ---------------------------------------------------------------- reading a day

  predicate InDay(e: Event, niche: Id, day: int) {
    e.niche == niche && day * DAY <= e.occurredAt < (day + 1) * DAY
  }

  function DayEvents(ledger: seq<Event>, niche: Id, day: int): seq<Event> {
    if ledger == [] then []
    else
      var n := |ledger| - 1;
      DayEvents(ledger[..n], niche, day) + if InDay(ledger[n], niche, day) then [ledger[n]] else []
  }

  /** Newest first. */
  function InsertByTime(es: seq<Event>, e: Event): seq<Event> {
    if es == [] then [e]
    else if e.occurredAt > es[0].occurredAt then [e] + es
    else [es[0]] + InsertByTime(es[1..], e)
  }

  function SortByTime(es: seq<Event>): seq<Event> {
    if es == [] then [] else InsertByTime(SortByTime(es[..|es| - 1]), es[|es| - 1])
  }

  /** The newest events of a day, no more than the query limit. */
  function ListDay(ledger: seq<Event>, niche: Id, day: int, limit: nat): seq<Event> {
    var es := SortByTime(DayEvents(ledger, niche, day));
    if |es| <= limit then es else es[..limit]
  }

  // ---------------------------------------------------------------- writing a day

  function Upsert<K(==), V>(table: Table<K, V>, niche: Id, day: int, rows: map<K, V>): Table<K, V> {
    table + map k | k in rows :: Cell(niche, day, k) := rows[k]
  }

  function Restricted<K(==), V>(rows: map<K, V>, keys: set<K>): map<K, V> {
    map k | k in rows && k in keys :: rows[k]
  }

  /** All rows but the rest are written. */
  ghost predicate Progress<K, V>(before: Table<K, V>, niche: Id, day: int, rows: map<K, V>, rest: set<K>,
                                 after: Table<K, V>)
  {
    after == Upsert(before, niche, day, Restricted(rows, rows.Keys - rest))
  }

  lemma WriteOne<K, V>(table: Table<K, V>, niche: Id, day: int, rows: map<K, V>, k: K, v: V)
    ensures Upsert(table, niche, day, rows[k := v]) == Upsert(table, niche, day, rows)[Cell(niche, day, k) := v]
  {
  }

  lemma ProgressBegins<K, V>(table: Table<K, V>, niche: Id, day: int, rows: map<K, V>)
    ensures Progress(table, niche, day, rows, rows.Keys, table)
  {
  }

  lemma ProgressOne<K, V>(before: Table<K, V>, niche: Id, day: int, rows: map<K, V>, rest: set<K>, after: Table<K, V>,
                          k: K)
    requires Progress(before, niche, day, rows, rest, after) && k in rest && rest <= rows.Keys
    ensures Progress(before, niche, day, rows, rest - {k}, after[Cell(niche, day, k) := rows[k]])
  {
    assert Restricted(rows, rows.Keys - (rest - {k})) == Restricted(rows, rows.Keys - rest)[k := rows[k]];
    WriteOne(before, niche, day, Restricted(rows, rows.Keys - rest), k, rows[k]);
  }

  lemma ProgressEnds<K, V>(before: Table<K, V>, niche: Id, day: int, rows: map<K, V>, after: Table<K, V>)
    requires Progress(before, niche, day, rows, {}, after)
    ensures after == Upsert(before, niche, day, rows)
  {
    assert Restricted(rows, rows.Keys - {}) == rows;
  }

  /** Day 0, the first of January 1970, was a Thursday. */
  predicate IsSunday(day: int) {
    (day + 4) % 7 == 0
  }

  function SnapshotKinds(day: int): set<SnapshotKind> {
    if IsSunday(day) then {Daily, Weekly} else {Daily}
  }

  /** A day's snapshot is written daily, and on Sundays as the week's too. */
  function SnapshotRows(day: int, s: Snapshot): (rows: map<SnapshotKind, Snapshot>)
    ensures rows.Keys == SnapshotKinds(day) && forall kind :: kind in rows ==> rows[kind] == s
  {
    if IsSunday(day) then map[Daily := s, Weekly := s] else map[Daily := s]
  }

  /** The tables with the models of a day and the snapshot of their totals written. */
  ghost function DayDb(db: Db, niche: Id, day: int, m: Models): Db {
    Db(db.ledger,
       Upsert(db.traffic, niche, day, m.traffic),
       Upsert(db.visitors, niche, day, m.visitors),
       Upsert(db.metrics, niche, day, m.metrics),
       Upsert(db.snapshots, niche, day, SnapshotRows(day, SnapshotOf(m))))
  }

  ghost function RollupDayDb(db: Db, niche: Id, day: int, limit: nat): Db {
    DayDb(db, niche, day, ModelsOf(ListDay(db.ledger, niche, day, limit)))
  }

  lemma UpsertNothing<K, V>(table: Table<K, V>, niche: Id, day: int, rows: map<K, V>)
    requires rows == map[]
    ensures Upsert(table, niche, day, rows) == table
  {
  }

  /** The daily snapshot first, on a Sunday the weekly one after it. */
  lemma SnapshotWrites(table: Table<SnapshotKind, Snapshot>, niche: Id, day: int, s: Snapshot)
    ensures
      var daily := table[Cell(niche, day, Daily) := s];
      Upsert(table, niche, day, SnapshotRows(day, s)) ==
      if IsSunday(day) then daily[Cell(niche, day, Weekly) := s] else daily
  {
  }

  /** One transaction a day, in calendar order. */
  ghost function RollupRangeDb(db: Db, niche: Id, first: int, last: int, limit: nat): Db
    decreases last - first
  {
    if first > last then db else RollupDayDb(RollupRangeDb(db, niche, first, last - 1, limit), niche, last, limit)
  }

  /** From one state to another by the rollups of the days first to last. */
  ghost predicate RolledUp(start: Db, niche: Id, first: int, last: int, limit: nat, end: Db) {
    end == RollupRangeDb(start, niche, first, last, limit)
  }

  /** Row by row, the given cells are looked up or added and written. */
  method UpsertRows<K(==), V>(table: Table<K, V>, niche: Id, day: int, rows: map<K, V>)
    returns (written: Table<K, V>, count: nat)
    ensures written == Upsert(table, niche, day, rows) && count == |rows|
  {
    written, count := table, 0;
    var rest := rows.Keys;
    ProgressBegins(table, niche, day, rows);
    while rest != {}
      invariant rest <= rows.Keys && count + |rest| == |rows|
      invariant Progress(table, niche, day, rows, rest, written)
      decreases rest
    {
      var k :| k in rest;
      ProgressOne(table, niche, day, rows, rest, written, k);
      rest := rest - {k};
      written := written[Cell(niche, day, k) := rows[k]];
      count := count + 1;
    }
    ProgressEnds(table, niche, day, rows, written);
  }

  lemma NoneYet(start: Db, niche: Id, first: int, done: int, limit: nat)
    requires done < first
    ensures RolledUp(start, niche, first, done, limit, start)
  {
  }

  lemma RangeDone(start: Db, niche: Id, first: int, done: int, last: int, limit: nat, db: Db)
    requires done == last && RolledUp(start, niche, first, done, limit, db)
    ensures RolledUp(start, niche, first, last, limit, db)
  {
  }

  /** Without models only the snapshot is new. */
  lemma NothingWritten(db: Db, niche: Id, day: int)
    ensures DayDb(db, niche, day, NO_MODELS) ==
            db.(snapshots := Upsert(db.snapshots, niche, day, SnapshotRows(day, SnapshotOf(NO_MODELS))))
  {
    UpsertNothing(db.traffic, niche, day, NO_MODELS.traffic);
    UpsertNothing(db.visitors, niche, day, NO_MODELS.visitors);
    UpsertNothing(db.metrics, niche, day, NO_MODELS.metrics);
  }

  lemma RangeNext(start: Db, niche: Id, first: int, done: int, day: int, limit: nat, db: Db)
    requires first <= day == done + 1 && RolledUp(start, niche, first, done, limit, db)
    ensures RolledUp(start, niche, first, day, limit, RollupDayDb(db, niche, day, limit))
  {
  }

  // ---------------------------------------------------------------- the store

  class AnalyticsStore {
    var ledger: seq<Event>
    var traffic: Table<TrafficKey, TrafficRow>
    var visitors: Table<VisitorKey, VisitorRow>
    var metrics: Table<MetricKey, real>
    var snapshots: Table<SnapshotKind, Snapshot>

    ghost function Tables(): Db
      reads this
    {
      Db(ledger, traffic, visitors, metrics, snapshots)
    }

    method EventExists(eventId: string) returns (found: bool)
      ensures found <==> Recorded(ledger, eventId)
    {
      for i := 0 to |ledger|
        invariant forall j :: 0 <= j < i ==> ledger[j].eventId != eventId
      {
        if ledger[i].eventId == eventId { return true; }
      }
      return false;
    }

    method Collect(e: Event, active: bool, traitsAllowed: bool) returns (outcome: IngestOutcome)
      modifies this`ledger
      ensures (Tables(), outcome) == CollectDb(old(Tables()), e, active, traitsAllowed)
    {
      if !active || !Collectable(e.kind) || !traitsAllowed { return Rejected; }
      var known := EventExists(e.eventId);
      if known { return Duplicate; }
      ledger := ledger + [e];
      return Accepted;
    }

    method TakeDomainEvent(e: Event, active: bool) returns (outcome: IngestOutcome)
      modifies this`ledger
      ensures (Tables(), outcome) == DomainEventDb(old(Tables()), e, active)
    {
      if !Internal(e.kind) || !active { return Rejected; }
      var known := EventExists(e.eventId);
      if known { return Duplicate; }
      ledger := ledger + [Anonymous(e)];
      return Accepted;
    }

    method UpsertTraffic(niche: Id, day: int, rows: map<TrafficKey, TrafficRow>) returns (count: nat)
      modifies this`traffic
      ensures traffic == Upsert(old(traffic), niche, day, rows) && count == |rows|
    {
      traffic, count := UpsertRows(traffic, niche, day, rows);
    }

    method UpsertVisitors(niche: Id, day: int, rows: map<VisitorKey, VisitorRow>) returns (count: nat)
      modifies this`visitors
      ensures visitors == Upsert(old(visitors), niche, day, rows) && count == |rows|
    {
      visitors, count := UpsertRows(visitors, niche, day, rows);
    }

    method UpsertMetrics(niche: Id, day: int, rows: map<MetricKey, real>) returns (count: nat)
      modifies this`metrics
      ensures metrics == Upsert(old(metrics), niche, day, rows) && count == |rows|
    {
      metrics, count := UpsertRows(metrics, niche, day, rows);
    }

    /** The totals of the models become the day's snapshot, and on a Sunday the week's. */
    method UpsertSnapshots(niche: Id, day: int, models: Models) returns (kinds: set<SnapshotKind>)
      modifies this`snapshots
      ensures snapshots == Upsert(old(snapshots), niche, day, SnapshotRows(day, SnapshotOf(models)))
      ensures unchanged(`ledger, `traffic, `visitors, `metrics)
      ensures kinds == SnapshotKinds(day)
    {
      var rows := models.traffic;
      var sessions := Aggregation.Total(rows.Keys, SessionsIn(rows));
      var pageviews := Aggregation.Total(rows.Keys, PageviewsIn(rows));
      var users := Aggregation.Total(rows.Keys, UsersIn(rows));
      var snapshot := Snapshot(sessions, pageviews, users, models.metrics, Devices(models.visitors));
      snapshots := snapshots[Cell(niche, day, Daily) := snapshot];
      kinds := {Daily};
      if IsSunday(day) {
        snapshots := snapshots[Cell(niche, day, Weekly) := snapshot];
        kinds := kinds + {Weekly};
      }
      SnapshotWrites(old(snapshots), niche, day, snapshot);
    }

    method UpsertModels(niche: Id, day: int, models: Models) returns (trafficRows: nat, visitorRows: nat, metricRows: nat)
      modifies this`traffic, this`visitors, this`metrics
      ensures traffic == Upsert(old(traffic), niche, day, models.traffic) && trafficRows == |models.traffic|
      ensures visitors == Upsert(old(visitors), niche, day, models.visitors) && visitorRows == |models.visitors|
      ensures metrics == Upsert(old(metrics), niche, day, models.metrics) && metricRows == |models.metrics|
      ensures unchanged(`ledger, `snapshots)
    {
      trafficRows := UpsertTraffic(niche, day, models.traffic);
      visitorRows := UpsertVisitors(niche, day, models.visitors);
      metricRows := UpsertMetrics(niche, day, models.metrics);
    }

    /** One day, one transaction. Without events only the snapshot is written, and only the daily one is reported. */
    method RollupDay(niche: Id, day: int, limit: nat)
      returns (trafficRows: nat, visitorRows: nat, metricRows: nat, kinds: set<SnapshotKind>)
      modifies this`traffic, this`visitors, this`metrics, this`snapshots
      ensures Tables() == RollupDayDb(old(Tables()), niche, day, limit)
      ensures
        var es := ListDay(old(ledger), niche, day, limit);
        && trafficRows == |ModelsOf(es).traffic| && visitorRows == |ModelsOf(es).visitors|
        && metricRows == |ModelsOf(es).metrics|
        && kinds == if es == [] then {Daily} else SnapshotKinds(day)
    {
      var events := ListDay(ledger, niche, day, limit);
      if events == [] {
        WriteNothing(niche, day);
        return 0, 0, 0, {Daily};
      }
      var models := Aggregation.AggregateEvents(events);
      trafficRows, visitorRows, metricRows, kinds := WriteDay(niche, day, models);
    }

    /** A day without events gets its zero snapshot. */
    method WriteNothing(niche: Id, day: int)
      modifies this`snapshots
      ensures Tables() == DayDb(old(Tables()), niche, day, NO_MODELS)
    {
      NothingWritten(Tables(), niche, day);
      var _ := UpsertSnapshots(niche, day, NO_MODELS);
    }

    method WriteDay(niche: Id, day: int, models: Models)
      returns (trafficRows: nat, visitorRows: nat, metricRows: nat, kinds: set<SnapshotKind>)
      modifies this`traffic, this`visitors, this`metrics, this`snapshots
      ensures Tables() == DayDb(old(Tables()), niche, day, models)
      ensures trafficRows == |models.traffic| && visitorRows == |models.visitors| && metricRows == |models.metrics|
      ensures kinds == SnapshotKinds(day)
    {
      ghost var written := DayDb(Tables(), niche, day, models);
      trafficRows, visitorRows, metricRows := UpsertModels(niche, day, models);
      assert traffic == written.traffic && visitors == written.visitors && metrics == written.metrics;
      kinds := UpsertSnapshots(niche, day, models);
      assert snapshots == written.snapshots;
    }

    /** The next day of a range that began in the state start. */
    method RollupNext(niche: Id, first: int, done: int, day: int, limit: nat, ghost start: Db)
      requires first <= day == done + 1 && RolledUp(start, niche, first, done, limit, Tables())
      modifies this`traffic, this`visitors, this`metrics, this`snapshots
      ensures RolledUp(start, niche, first, day, limit, Tables())
    {
      ghost var before := Tables();
      var _, _, _, _ := RollupDay(niche, day, limit);
      RangeNext(start, niche, first, done, day, limit, before);
    }

    /** The days of a range, one after another. */
    method RollupDays(niche: Id, first: int, last: int, limit: nat)
      requires first <= last
      modifies this`traffic, this`visitors, this`metrics, this`snapshots
      ensures RolledUp(old(Tables()), niche, first, last, limit, Tables())
    {
      var day := first;
      var done := first - 1;
      ghost var start := Tables();
      NoneYet(start, niche, first, done, limit);
      while day <= last
        invariant first <= day == done + 1 <= last + 1
        invariant RolledUp(start, niche, first, done, limit, Tables())
      {
        RollupNext(niche, first, done, day, limit, start);
        done := day;
        day := day + 1;
      }
      RangeDone(start, niche, first, done, last, limit, Tables());
    }

    /** A range runs day by day; an inverted or too long range is refused and writes nothing. */
    method RunRollups(niche: Id, first: int, last: int, today: int, window: int, limit: nat) returns (ok: bool)
      modifies this`traffic, this`visitors, this`metrics, this`snapshots
      ensures ok <==> first <= last && today - first <= window
      ensures Tables() == if ok then RollupRangeDb(old(Tables()), niche, first, last, limit) else old(Tables())
    {
      if first > last || today - first > window { return false; }
      RollupDays(niche, first, last, limit);
      return true;
    }
  }
}
