/**
 What ingestion adds to the ledger, what a day's listing holds, and what a rollup leaves in the tables, told field by
 field.
 */
module RollupOutcomes {
  import opened Prelude
  import opened AnalyticsEvents
  import opened Rollup
  import opened RollupLaws

  // ---------------------------------------------------------------- ingestion

  predicate SameId(a: Event, b: Event) {
    a.eventId == b.eventId
  }

  ghost predicate Known(ledger: seq<Event>, e: Event) {
    exists i :: 0 <= i < |ledger| && SameId(ledger[i], e)
  }

  lemma KnownIsRecorded(ledger: seq<Event>, e: Event)
    ensures Known(ledger, e) <==> Recorded(ledger, e.eventId)
  {
    if Recorded(ledger, e.eventId) {
      var i :| 0 <= i < |ledger| && ledger[i].eventId == e.eventId;
      assert SameId(ledger[i], e);
    }
  }

  /** The ledger grows by the row at its end, unless it has that event already. */
  ghost predicate TakesOnce(db: Db, row: Event, db': Db, outcome: IngestOutcome) {
    if Known(db.ledger, row) then (db', outcome) == (db, Duplicate)
    else outcome == Accepted && db' == db.(ledger := db.ledger + [row])
  }

  /** The collector refuses inactive niches, traits that are not allowed and the two kinds that come as domain events. */
  lemma Collecting(db: Db, e: Event, active: bool, traitsAllowed: bool)
    ensures
      var (db', outcome) := CollectDb(db, e, active, traitsAllowed);
      if active && traitsAllowed && e.kind != RevenueAttributed && e.kind != PinPublished
      then TakesOnce(db, e, db', outcome)
      else (db', outcome) == (db, Rejected)
  {
    KnownIsRecorded(db.ledger, e);
  }

  /** Of domain events four kinds are taken, without session, user and referrer. */
  lemma TakingDomainEvents(db: Db, e: Event, active: bool)
    ensures
      var (db', outcome) := DomainEventDb(db, e, active);
      if active && (e.kind == AffiliateClick || e.kind == RevenueAttributed || e.kind == PinPublished || e.kind == Other)
      then
        TakesOnce(db, Event(e.eventId, e.niche, e.account, e.kind, "", "", "", e.device, e.country, e.duration, e.amount,
                            e.commission, e.impressions, e.occurredAt), db', outcome)
      else (db', outcome) == (db, Rejected)
  {
    KnownIsRecorded(db.ledger, Anonymous(e));
  }

  // ---------------------------------------------------------------- the listing of a day

  /** The niche's event lies between the day's first second and the next day's. */
  predicate OnDay(e: Event, niche: Id, day: int) {
    e.niche == niche && 86400 * day <= e.occurredAt && e.occurredAt < 86400 * day + 86400
  }

  lemma {:induction false} DayHolds(ledger: seq<Event>, niche: Id, day: int, e: Event)
    ensures multiset(DayEvents(ledger, niche, day))[e] == if OnDay(e, niche, day) then multiset(ledger)[e] else 0
    decreases |ledger|
  {
    if ledger != [] {
      var n := |ledger| - 1;
      assert ledger == ledger[..n] + [ledger[n]];
      DayHolds(ledger[..n], niche, day, e);
    }
  }

  /**
   A listing is newest first and has events of the ledger only, none more often than the ledger and all of the day. What
   it leaves out is no newer than what it has, and nothing is left out before the limit is reached.
   */
  lemma Listing(ledger: seq<Event>, niche: Id, day: int, limit: nat, e: Event)
    ensures
      var listed := ListDay(ledger, niche, day, limit);
      && |listed| <= limit
      && (forall i, j :: 0 <= i < j < |listed| ==> listed[i].occurredAt >= listed[j].occurredAt)
      && multiset(listed)[e] <= multiset(ledger)[e]
      && (e in listed ==> OnDay(e, niche, day))
      && (OnDay(e, niche, day) && multiset(listed)[e] < multiset(ledger)[e] ==>
            |listed| == limit && forall x :: x in listed ==> x.occurredAt >= e.occurredAt)
  {
    SortKeeps(DayEvents(ledger, niche, day));
    DayHolds(ledger, niche, day, e);
    CutOff(SortByTime(DayEvents(ledger, niche, day)), limit, e);
  }

  lemma CutOff(sorted: seq<Event>, limit: nat, e: Event)
    requires NewestFirst(sorted)
    ensures
      var listed := if |sorted| <= limit then sorted else sorted[..limit];
      && |listed| <= limit && NewestFirst(listed)
      && multiset(listed)[e] <= multiset(sorted)[e] && (e in listed <==> multiset(listed)[e] > 0)
      && (multiset(listed)[e] < multiset(sorted)[e] ==>
            |listed| == limit && forall x :: x in listed ==> x.occurredAt >= e.occurredAt)
  {
    if |sorted| > limit {
      assert sorted == sorted[..limit] + sorted[limit..];
      if multiset(sorted[..limit])[e] < multiset(sorted)[e] { LeftOutIsOlder(sorted[..limit], sorted[limit..], e); }
    }
  }

  lemma LeftOutIsOlder(listed: seq<Event>, rest: seq<Event>, e: Event)
    requires NewestFirst(listed + rest) && multiset(listed)[e] < multiset(listed + rest)[e]
    ensures forall x :: x in listed ==> x.occurredAt >= e.occurredAt
  {
    assert multiset(listed + rest) == multiset(listed) + multiset(rest);
    assert e in multiset(rest);
    var j :| 0 <= j < |rest| && rest[j] == e;
    assert (listed + rest)[|listed| + j] == e;
    forall x | x in listed ensures x.occurredAt >= e.occurredAt {
      var i :| 0 <= i < |listed| && listed[i] == x;
      assert (listed + rest)[i] == x;
    }
  }

  // ---------------------------------------------------------------- what a rollup leaves

  /** The rows are in the table at their niche and day; every other cell has what it had. */
  ghost predicate Overwritten<K(!new), V>(before: Table<K, V>, after: Table<K, V>, niche: Id, day: int, rows: map<K, V>) {
    forall c :: (c in after <==> c in before || IsCellOf(c, niche, day, rows)) &&
                (c in after ==> after[c] == if IsCellOf(c, niche, day, rows) then rows[c.key] else before[c])
  }

  predicate IsCellOf<K(==), V>(c: Cell<K>, niche: Id, day: int, rows: map<K, V>) {
    c.niche == niche && c.day == day && c.key in rows
  }

  lemma UpsertOverwrites<K(!new), V>(table: Table<K, V>, niche: Id, day: int, rows: map<K, V>)
    ensures Overwritten(table, Upsert(table, niche, day, rows), niche, day, rows)
  {
    var after := Upsert(table, niche, day, rows);
    forall c ensures c in after <==> c in table || IsCellOf(c, niche, day, rows) {
      if IsCellOf(c, niche, day, rows) { assert c == Cell(niche, day, c.key); }
    }
  }

  /** The three models of the listed events are written over the day's cells, and the ledger stays. */
  lemma RollingUp(db: Db, niche: Id, day: int, limit: nat)
    ensures
      var (db', listed) := (RollupDayDb(db, niche, day, limit), ListDay(db.ledger, niche, day, limit));
      && db'.ledger == db.ledger
      && (listed == [] ==> db'.traffic == db.traffic && db'.visitors == db.visitors && db'.metrics == db.metrics)
      && (listed != [] ==>
            && Overwritten(db.traffic, db'.traffic, niche, day, TrafficOf(listed))
            && Overwritten(db.visitors, db'.visitors, niche, day, VisitorsOf(listed))
            && Overwritten(db.metrics, db'.metrics, niche, day, MetricsOf(listed)))
  {
    var listed := ListDay(db.ledger, niche, day, limit);
    if listed == [] {
      NothingWritten(db, niche, day);
    } else {
      UpsertOverwrites(db.traffic, niche, day, TrafficOf(listed));
      UpsertOverwrites(db.visitors, niche, day, VisitorsOf(listed));
      UpsertOverwrites(db.metrics, niche, day, MetricsOf(listed));
    }
  }

  /** The fourth of January 1970, day 3, was a Sunday, and so is every seventh day from it. */
  ghost predicate Sunday(day: int) {
    exists weeks :: day == SevenTimes(weeks) + 3
  }

  function SevenTimes(weeks: int): int {
    7 * weeks
  }

  lemma SundaysRecur(day: int)
    ensures Sunday(day) <==> IsSunday(day)
  {
    if IsSunday(day) { assert day == SevenTimes((day - 3) / 7) + 3; }
  }

  /** One snapshot is written, as the day's, and on a Sunday as the week's too. */
  lemma Snapshotting(db: Db, niche: Id, day: int, limit: nat, c: Cell<SnapshotKind>)
    ensures
      var db' := RollupDayDb(db, niche, day, limit);
      var s := SnapshotOf(ModelsOf(ListDay(db.ledger, niche, day, limit)));
      if c.niche == niche && c.day == day && (c.key == Daily || Sunday(day))
      then c in db'.snapshots && db'.snapshots[c] == s
      else (c in db'.snapshots <==> c in db.snapshots) && (c in db.snapshots ==> db'.snapshots[c] == db.snapshots[c])
  {
    SundaysRecur(day);
    var s := SnapshotOf(ModelsOf(ListDay(db.ledger, niche, day, limit)));
    UpsertOverwrites(db.snapshots, niche, day, SnapshotRows(day, s));
  }

  predicate FromDevice(e: Event, v: VisitorKey) {
    (e.kind == PageView || e.kind == SessionStart) && VisitorOf(e) == v
  }

  /** It has the day's page views, the metrics as they are, and for each visitor label its sessions. */
  lemma SnapshotHolds(es: seq<Event>, v: VisitorKey)
    ensures
      var s := SnapshotOf(ModelsOf(es));
      && s.pageviews == Count(es, IsPageView) && s.metrics == ModelsOf(es).metrics
      && (v in s.devices <==> exists e :: e in es && FromDevice(e, v))
      && (v in s.devices ==> s.devices[v] == |set e | e in es && FromDevice(e, v) && e.session != "" :: e.session|)
  {
    assert SnapshotOf(ModelsOf(es)).pageviews == Count(es, IsPageView) by { SnapshotTotals(es); }
    if es != [] { DeviceHolds(es, v); }
  }

  lemma DeviceHolds(es: seq<Event>, v: VisitorKey)
    ensures
      var devices := Devices(VisitorsOf(es));
      && (v in devices <==> exists e :: e in es && FromDevice(e, v))
      && (v in devices ==> devices[v] == |set e | e in es && FromDevice(e, v) && e.session != "" :: e.session|)
  {
    assert v in VisitorKeys(es) <==> exists e :: e in es && FromDevice(e, v);
    assert VisitorSessions(es, v) == set e | e in es && FromDevice(e, v) && e.session != "" :: e.session;
  }
}
