/** The read models agree with the ledger: after any history, a rolled-up day is exactly the aggregate of its events. */
module RollupLaws {
  import opened Prelude
  import opened AnalyticsEvents
  import opened AggregateLaws
  import opened Rollup

  // ---------------------------------------------------------------- slices of a table

  ghost predicate SliceIs<K(!new), V>(table: Table<K, V>, niche: Id, day: int, rows: map<K, V>) {
    && (forall k :: Cell(niche, day, k) in table <==> k in rows)
    && (forall k :: k in rows ==> Cell(niche, day, k) in table && table[Cell(niche, day, k)] == rows[k])
  }

  ghost predicate SliceWithin<K(!new), V>(table: Table<K, V>, niche: Id, day: int, keys: set<K>) {
    forall k :: Cell(niche, day, k) in table ==> k in keys
  }

  ghost predicate SliceSame<K(!new), V>(before: Table<K, V>, after: Table<K, V>, niche: Id, day: int) {
    && (forall k :: Cell(niche, day, k) in after <==> Cell(niche, day, k) in before)
    && (forall k :: Cell(niche, day, k) in before ==> after[Cell(niche, day, k)] == before[Cell(niche, day, k)])
  }

  lemma UpsertExact<K(!new), V>(table: Table<K, V>, niche: Id, day: int, rows: map<K, V>)
    requires SliceWithin(table, niche, day, rows.Keys)
    ensures SliceIs(Upsert(table, niche, day, rows), niche, day, rows)
  {
  }

  lemma UpsertWithin<K(!new), V>(table: Table<K, V>, niche: Id, day: int, rows: map<K, V>, keys: set<K>)
    requires SliceWithin(table, niche, day, keys) && rows.Keys <= keys
    ensures SliceWithin(Upsert(table, niche, day, rows), niche, day, keys)
  {
  }

  lemma UpsertElsewhere<K(!new), V>(table: Table<K, V>, niche: Id, day: int, rows: map<K, V>, n: Id, d: int)
    requires n != niche || d != day
    ensures SliceSame(table, Upsert(table, niche, day, rows), n, d)
  {
  }

  // ---------------------------------------------------------------- the events of a day

  lemma AppendedDay(ledger: seq<Event>, e: Event, niche: Id, day: int)
    ensures DayEvents(ledger + [e], niche, day) == DayEvents(ledger, niche, day) + if InDay(e, niche, day) then [e] else []
  {
    assert (ledger + [e])[..|ledger|] == ledger;
  }

  /** Days partition the ledger: every event is in the half-open window of exactly one day. */
  lemma OneDayEach(e: Event, day: int)
    ensures InDay(e, e.niche, day) <==> day == e.occurredAt / DAY
  {
  }

  predicate NewestFirst(es: seq<Event>) {
    forall i, j :: 0 <= i < j < |es| ==> es[i].occurredAt >= es[j].occurredAt
  }

  lemma {:induction false} InsertKeeps(es: seq<Event>, e: Event)
    ensures multiset(InsertByTime(es, e)) == multiset(es) + multiset{e}
    decreases |es|
  {
    if es != [] && e.occurredAt <= es[0].occurredAt {
      assert es == [es[0]] + es[1..];
      InsertKeeps(es[1..], e);
    }
  }

  lemma {:induction false} InsertSorts(es: seq<Event>, e: Event)
    requires NewestFirst(es)
    ensures NewestFirst(InsertByTime(es, e))
    decreases |es|
  {
    if es != [] && e.occurredAt <= es[0].occurredAt {
      var rest := InsertByTime(es[1..], e);
      InsertSorts(es[1..], e);
      forall x | x in rest ensures x.occurredAt <= es[0].occurredAt { InsertedFrom(es[1..], e, x); }
      PutFirst(es[0], rest);
    }
  }

  lemma InsertedFrom(es: seq<Event>, e: Event, x: Event)
    requires x in InsertByTime(es, e)
    ensures x in es || x == e
  {
    InsertKeeps(es, e);
    assert x in multiset(InsertByTime(es, e));
  }

  lemma PutFirst(first: Event, rest: seq<Event>)
    requires NewestFirst(rest) && forall x :: x in rest ==> x.occurredAt <= first.occurredAt
    ensures NewestFirst([first] + rest)
  {
  }

  /** Sorting by time loses no event and adds none. */
  lemma {:induction false} SortKeeps(es: seq<Event>)
    ensures multiset(SortByTime(es)) == multiset(es)
    ensures NewestFirst(SortByTime(es))
    decreases |es|
  {
    if es != [] {
      var rest, last := es[..|es| - 1], es[|es| - 1];
      assert es == rest + [last];
      SortKeeps(rest);
      InsertKeeps(SortByTime(rest), last);
      InsertSorts(SortByTime(rest), last);
    }
  }

  lemma ListedAreOfDay(ledger: seq<Event>, niche: Id, day: int, limit: nat)
    ensures
      var (listed, es) := (ListDay(ledger, niche, day, limit), DayEvents(ledger, niche, day));
      && (forall e :: e in listed ==> e in es)
      && (|es| <= limit ==> multiset(listed) == multiset(es))
      && (listed == [] <==> es == [] || limit == 0)
  {
    var es := DayEvents(ledger, niche, day);
    var sorted := SortByTime(es);
    SortKeeps(es);
    assert |sorted| == |multiset(sorted)| == |multiset(es)| == |es|;
    forall e | e in sorted ensures e in es {
      assert e in multiset(sorted);
    }
  }

  function MetricKeys(es: seq<Event>): set<MetricKey> {
    if es == [] then {} else Touched(es) + {SESSIONS, UNIQUE_VISITORS}
  }

  /** More events never take a key away. */
  lemma KeysGrow(few: seq<Event>, many: seq<Event>)
    requires forall e :: e in few ==> e in many
    ensures TrafficKeys(few) <= TrafficKeys(many)
    ensures VisitorKeys(few) <= VisitorKeys(many)
    ensures MetricKeys(few) <= MetricKeys(many)
  {
    if few != [] {
      assert few[0] in many;
      forall k | k in Touched(few) ensures k in Touched(many) {
        var e :| e in few && k in Gains(e);
        assert e in many;
      }
    }
  }

  // ---------------------------------------------------------------- the invariant and the agreement

  /** A slice never holds a key that its day's events do not have. */
  ghost predicate NoStaleRows(db: Db, niche: Id, day: int) {
    var es := DayEvents(db.ledger, niche, day);
    && SliceWithin(db.traffic, niche, day, TrafficKeys(es))
    && SliceWithin(db.visitors, niche, day, VisitorKeys(es))
    && SliceWithin(db.metrics, niche, day, MetricKeys(es))
    && SliceWithin(db.snapshots, niche, day, SnapshotKinds(day))
  }

  /** A slice is the aggregate of its day's events and their totals; a day without events has no rows but a zero snapshot. */
  ghost predicate Agrees(db: Db, niche: Id, day: int) {
    var m := ModelsOf(DayEvents(db.ledger, niche, day));
    && SliceIs(db.traffic, niche, day, m.traffic)
    && SliceIs(db.visitors, niche, day, m.visitors)
    && SliceIs(db.metrics, niche, day, m.metrics)
    && SliceIs(db.snapshots, niche, day, SnapshotRows(day, SnapshotOf(m)))
  }

  ghost predicate SlicesSame(before: Db, after: Db, niche: Id, day: int) {
    && SliceSame(before.traffic, after.traffic, niche, day)
    && SliceSame(before.visitors, after.visitors, niche, day)
    && SliceSame(before.metrics, after.metrics, niche, day)
    && SliceSame(before.snapshots, after.snapshots, niche, day)
  }

  lemma RollupElsewhere(db: Db, niche: Id, day: int, limit: nat, n: Id, d: int)
    requires n != niche || d != day
    ensures SlicesSame(db, RollupDayDb(db, niche, day, limit), n, d)
  {
    var m := ModelsOf(ListDay(db.ledger, niche, day, limit));
    UpsertElsewhere(db.traffic, niche, day, m.traffic, n, d);
    UpsertElsewhere(db.visitors, niche, day, m.visitors, n, d);
    UpsertElsewhere(db.metrics, niche, day, m.metrics, n, d);
    UpsertElsewhere(db.snapshots, niche, day, SnapshotRows(day, SnapshotOf(m)), n, d);
  }

  lemma RollupKeepsNoStaleRows(db: Db, niche: Id, day: int, limit: nat)
    requires NoStaleRows(db, niche, day)
    ensures NoStaleRows(RollupDayDb(db, niche, day, limit), niche, day)
  {
    var listed, es := ListDay(db.ledger, niche, day, limit), DayEvents(db.ledger, niche, day);
    var m := ModelsOf(listed);
    ListedAreOfDay(db.ledger, niche, day, limit);
    KeysGrow(listed, es);
    RowKeys(listed);
    UpsertWithin(db.traffic, niche, day, m.traffic, TrafficKeys(es));
    UpsertWithin(db.visitors, niche, day, m.visitors, VisitorKeys(es));
    UpsertWithin(db.metrics, niche, day, m.metrics, MetricKeys(es));
    UpsertWithin(db.snapshots, niche, day, SnapshotRows(day, SnapshotOf(m)), SnapshotKinds(day));
  }

  lemma RowKeys(es: seq<Event>)
    ensures ModelsOf(es).traffic.Keys == TrafficKeys(es)
    ensures ModelsOf(es).visitors.Keys == VisitorKeys(es)
    ensures ModelsOf(es).metrics.Keys == MetricKeys(es)
  {
    if es == [] { assert TrafficKeys(es) == {} && VisitorKeys(es) == {}; }
  }

  /** A rollup that reads the whole day makes its slice the aggregate of the day. */
  lemma RollupAgrees(db: Db, niche: Id, day: int, limit: nat)
    requires NoStaleRows(db, niche, day) && |DayEvents(db.ledger, niche, day)| <= limit
    ensures Agrees(RollupDayDb(db, niche, day, limit), niche, day)
  {
    var listed, es := ListDay(db.ledger, niche, day, limit), DayEvents(db.ledger, niche, day);
    ListedAreOfDay(db.ledger, niche, day, limit);
    OrderIrrelevant(listed, es);
    var m := ModelsOf(es);
    assert ModelsOf(listed) == m;
    RowKeys(es);
    UpsertExact(db.traffic, niche, day, m.traffic);
    UpsertExact(db.visitors, niche, day, m.visitors);
    UpsertExact(db.metrics, niche, day, m.metrics);
    UpsertExact(db.snapshots, niche, day, SnapshotRows(day, SnapshotOf(m)));
  }

  lemma {:induction false} RangeKeepsLedger(db: Db, niche: Id, first: int, last: int, limit: nat)
    ensures RollupRangeDb(db, niche, first, last, limit).ledger == db.ledger
    decreases last - first
  {
    if first <= last { RangeKeepsLedger(db, niche, first, last - 1, limit); }
  }

  lemma SameAgrees(before: Db, after: Db, niche: Id, day: int)
    requires SlicesSame(before, after, niche, day)
    requires DayEvents(after.ledger, niche, day) == DayEvents(before.ledger, niche, day)
    ensures Agrees(before, niche, day) ==> Agrees(after, niche, day)
    ensures NoStaleRows(before, niche, day) ==> NoStaleRows(after, niche, day)
  {
  }

  lemma SameChains(a: Db, b: Db, c: Db, niche: Id, day: int)
    requires SlicesSame(a, b, niche, day) && SlicesSame(b, c, niche, day)
    ensures SlicesSame(a, c, niche, day)
  {
  }

  /** A range of rollups leaves every other slice alone. */
  lemma {:induction false} RangeElsewhere(db: Db, niche: Id, first: int, last: int, limit: nat, n: Id, d: int)
    requires n != niche || d < first || d > last
    ensures SlicesSame(db, RollupRangeDb(db, niche, first, last, limit), n, d)
    decreases last - first
  {
    if first <= last {
      var earlier := RollupRangeDb(db, niche, first, last - 1, limit);
      RangeElsewhere(db, niche, first, last - 1, limit, n, d);
      RollupElsewhere(earlier, niche, last, limit, n, d);
      SameChains(db, earlier, RollupRangeDb(db, niche, first, last, limit), n, d);
    }
  }

  lemma LastDayAgrees(db: Db, niche: Id, first: int, last: int, limit: nat)
    requires first <= last
    requires NoStaleRows(db, niche, last) && |DayEvents(db.ledger, niche, last)| <= limit
    ensures Agrees(RollupRangeDb(db, niche, first, last, limit), niche, last)
  {
    var earlier := RollupRangeDb(db, niche, first, last - 1, limit);
    assert SlicesSame(db, earlier, niche, last) by { RangeElsewhere(db, niche, first, last - 1, limit, niche, last); }
    assert earlier.ledger == db.ledger by { RangeKeepsLedger(db, niche, first, last - 1, limit); }
    assert NoStaleRows(earlier, niche, last) by { SameAgrees(db, earlier, niche, last); }
    RollupAgrees(earlier, niche, last, limit);
  }

  lemma LaterDayKeeps(earlier: Db, niche: Id, last: int, limit: nat, day: int)
    requires day != last && Agrees(earlier, niche, day)
    ensures Agrees(RollupDayDb(earlier, niche, last, limit), niche, day)
  {
    RollupElsewhere(earlier, niche, last, limit, niche, day);
    SameAgrees(earlier, RollupDayDb(earlier, niche, last, limit), niche, day);
  }

  lemma EarlierDayAgrees(db: Db, niche: Id, first: int, last: int, limit: nat, day: int)
    requires first <= day < last
    requires NoStaleRows(db, niche, day) && |DayEvents(db.ledger, niche, day)| <= limit
    ensures Agrees(RollupRangeDb(db, niche, first, last, limit), niche, day)
    decreases last - first, 0
  {
    RangeAgrees(db, niche, first, last - 1, limit, day);
    LaterDayKeeps(RollupRangeDb(db, niche, first, last - 1, limit), niche, last, limit, day);
  }

  /** Right after a range of rollups, every day of the range agrees with the ledger. */
  lemma {:induction false} RangeAgrees(db: Db, niche: Id, first: int, last: int, limit: nat, day: int)
    requires first <= day <= last
    requires NoStaleRows(db, niche, day) && |DayEvents(db.ledger, niche, day)| <= limit
    ensures Agrees(RollupRangeDb(db, niche, first, last, limit), niche, day)
    decreases last - first, 1
  {
    if day < last {
      EarlierDayAgrees(db, niche, first, last, limit, day);
    } else {
      LastDayAgrees(db, niche, first, last, limit);
    }
  }

  // ---------------------------------------------------------------- every history

  datatype Change =
    | Collected(event: Event, active: bool, traitsAllowed: bool)
    | FromDomain(event: Event, active: bool)
    | RolledUp(niche: Id, day: int)

  ghost function Step(db: Db, c: Change, limit: nat): Db {
    match c
    case Collected(e, active, traitsAllowed) => CollectDb(db, e, active, traitsAllowed).0
    case FromDomain(e, active) => DomainEventDb(db, e, active).0
    case RolledUp(niche, day) => RollupDayDb(db, niche, day, limit)
  }

  ghost function Run(db: Db, cs: seq<Change>, limit: nat): Db
    decreases |cs|
  {
    if cs == [] then db else Run(Step(db, cs[0], limit), cs[1..], limit)
  }

  const EMPTY := Db([], map[], map[], map[], map[])

  lemma IngestKeepsNoStaleRows(db: Db, e: Event, niche: Id, day: int)
    requires NoStaleRows(db, niche, day)
    ensures NoStaleRows(db.(ledger := db.ledger + [e]), niche, day)
  {
    AppendedDay(db.ledger, e, niche, day);
    KeysGrow(DayEvents(db.ledger, niche, day), DayEvents(db.ledger + [e], niche, day));
  }

  lemma IngestAppends(db: Db, c: Change, limit: nat)
    requires !c.RolledUp?
    ensures Step(db, c, limit) == db || exists e :: Step(db, c, limit) == db.(ledger := db.ledger + [e])
  {
  }

  lemma StepKeepsNoStaleRows(db: Db, c: Change, limit: nat, niche: Id, day: int)
    requires NoStaleRows(db, niche, day)
    ensures NoStaleRows(Step(db, c, limit), niche, day)
  {
    var db' := Step(db, c, limit);
    if c.RolledUp? {
      if c.niche == niche && c.day == day {
        RollupKeepsNoStaleRows(db, niche, day, limit);
      } else {
        RollupElsewhere(db, c.niche, c.day, limit, niche, day);
        SameAgrees(db, db', niche, day);
      }
    } else {
      IngestAppends(db, c, limit);
      if db' != db {
        var e :| db' == db.(ledger := db.ledger + [e]);
        IngestKeepsNoStaleRows(db, e, niche, day);
      }
    }
  }

  /** In every history, no slice holds a key that its day's events lack. */
  lemma {:induction false} NeverStale(db: Db, cs: seq<Change>, limit: nat, niche: Id, day: int)
    requires NoStaleRows(db, niche, day)
    ensures NoStaleRows(Run(db, cs, limit), niche, day)
    decreases |cs|
  {
    if cs != [] {
      StepKeepsNoStaleRows(db, cs[0], limit, niche, day);
      NeverStale(Step(db, cs[0], limit), cs[1..], limit, niche, day);
    }
  }

  lemma RollupKeepsAgreement(db: Db, n: Id, d: int, limit: nat, niche: Id, day: int)
    requires NoStaleRows(db, niche, day) && Agrees(db, niche, day)
    requires |DayEvents(db.ledger, niche, day)| <= limit
    ensures Agrees(RollupDayDb(db, n, d, limit), niche, day)
  {
    if n == niche && d == day {
      RollupAgrees(db, niche, day, limit);
    } else {
      var db' := RollupDayDb(db, n, d, limit);
      assert SlicesSame(db, db', niche, day) by { RollupElsewhere(db, n, d, limit, niche, day); }
      SameAgrees(db, db', niche, day);
    }
  }

  /** An agreeing day goes on agreeing until an event of that day comes in. */
  lemma StepKeepsAgreement(db: Db, c: Change, limit: nat, niche: Id, day: int)
    requires NoStaleRows(db, niche, day) && Agrees(db, niche, day)
    requires |DayEvents(db.ledger, niche, day)| <= limit
    requires DayEvents(Step(db, c, limit).ledger, niche, day) == DayEvents(db.ledger, niche, day)
    ensures Agrees(Step(db, c, limit), niche, day)
  {
    if c.RolledUp? {
      RollupKeepsAgreement(db, c.niche, c.day, limit, niche, day);
    } else {
      IngestAppends(db, c, limit);
      var db' := Step(db, c, limit);
      assert SlicesSame(db, db', niche, day);
      SameAgrees(db, db', niche, day);
    }
  }

  lemma {:induction false} DayOnlyGrows(db: Db, cs: seq<Change>, limit: nat, niche: Id, day: int)
    ensures |DayEvents(Run(db, cs, limit).ledger, niche, day)| >= |DayEvents(db.ledger, niche, day)|
    ensures |DayEvents(Run(db, cs, limit).ledger, niche, day)| == |DayEvents(db.ledger, niche, day)| ==>
              DayEvents(Run(db, cs, limit).ledger, niche, day) == DayEvents(db.ledger, niche, day)
    decreases |cs|
  {
    if cs != [] {
      var db' := Step(db, cs[0], limit);
      DayOnlyGrows(db', cs[1..], limit, niche, day);
      if cs[0].RolledUp? {
      } else {
        IngestAppends(db, cs[0], limit);
        if db' != db {
          var e :| db' == db.(ledger := db.ledger + [e]);
          AppendedDay(db.ledger, e, niche, day);
        }
      }
    }
  }

  lemma AgreesNotStale(db: Db, niche: Id, day: int)
    requires Agrees(db, niche, day)
    ensures NoStaleRows(db, niche, day)
  {
    RowKeys(DayEvents(db.ledger, niche, day));
  }

  /** It stays so through any later history that brings no event of that day. */
  lemma {:induction false} AgreementLasts(db: Db, cs: seq<Change>, limit: nat, niche: Id, day: int)
    requires Agrees(db, niche, day)
    requires |DayEvents(db.ledger, niche, day)| <= limit
    requires DayEvents(Run(db, cs, limit).ledger, niche, day) == DayEvents(db.ledger, niche, day)
    ensures Agrees(Run(db, cs, limit), niche, day)
    decreases |cs|
  {
    if cs != [] {
      var db' := Step(db, cs[0], limit);
      AgreesNotStale(db, niche, day);
      DayOnlyGrows(db, [cs[0]], limit, niche, day);
      assert Run(db', [], limit) == db' == Run(db, [cs[0]], limit);
      DayOnlyGrows(db', cs[1..], limit, niche, day);
      StepKeepsAgreement(db, cs[0], limit, niche, day);
      AgreementLasts(db', cs[1..], limit, niche, day);
    }
  }

  /**
   After any history of ingests and rollups, a range rollup leaves every day of its range equal to the aggregate of
   that day's events, as long as the query limit covers the day.
   */
  lemma ReadModelsAgree(history: seq<Change>, niche: Id, first: int, last: int, limit: nat, day: int)
    requires first <= day <= last && |DayEvents(Run(EMPTY, history, limit).ledger, niche, day)| <= limit
    ensures Agrees(RollupRangeDb(Run(EMPTY, history, limit), niche, first, last, limit), niche, day)
  {
    NeverStale(EMPTY, history, limit, niche, day);
    RangeAgrees(Run(EMPTY, history, limit), niche, first, last, limit, day);
  }

  /** A snapshot's totals are the day's page-view events and the totals kept as metrics; without events all are zero. */
  lemma SnapshotTotals(es: seq<Event>)
    ensures
      var s := SnapshotOf(ModelsOf(es));
      && s.pageviews == Count(es, IsPageView)
      && (es == [] ==> s == Snapshot(0, 0, 0, map[], map[]))
      && (es != [] ==> s.metrics[SESSIONS] == s.sessions as real && s.metrics[UNIQUE_VISITORS] == s.visitors as real)
  {
    if es != [] {
      PageviewsConserved(es);
      TotalsAreMetrics(es);
    }
  }

  lemma TotalsAreMetrics(es: seq<Event>)
    ensures SumOver(TrafficOf(es).Keys, SessionsIn(TrafficOf(es))) as real == MetricsOf(es)[SESSIONS]
    ensures SumOver(TrafficOf(es).Keys, UsersIn(TrafficOf(es))) as real == MetricsOf(es)[UNIQUE_VISITORS]
  {
    var rows := TrafficOf(es);
    assert rows.Keys == TrafficKeys(es);
    SumOverSame(TrafficKeys(es), SessionsIn(rows), SessionCount(es));
    SumOverSame(TrafficKeys(es), UsersIn(rows), UserCount(es));
    assert MetricsOf(es)[SESSIONS] == MetricOf(es, SESSIONS);
    assert MetricsOf(es)[UNIQUE_VISITORS] == MetricOf(es, UNIQUE_VISITORS);
  }

  // -- why a day without events is not aggregated

  /** The aggregation of no events would have two metric rows, where the slice of a day without events has none. */
  lemma AggregateOfNothing()
    ensures AggregateOf([]).metrics == map[SESSIONS := 0.0, UNIQUE_VISITORS := 0.0]
    ensures AggregateOf([]) != ModelsOf([]) == NO_MODELS
  {
    var none: seq<Event> := [];
    assert TrafficKeys(none) == {} && Touched(none) + {SESSIONS, UNIQUE_VISITORS} == {SESSIONS, UNIQUE_VISITORS};
    assert SumOver({}, SessionCount(none)) == 0 && SumOver({}, UserCount(none)) == 0;
    assert MetricsOf(none)[SESSIONS] == MetricOf(none, SESSIONS) == 0.0;
    assert MetricsOf(none)[UNIQUE_VISITORS] == MetricOf(none, UNIQUE_VISITORS) == 0.0;
  }

  // ---------------------------------------------------------------- the ledger itself

  ghost predicate OneRowPerEvent(ledger: seq<Event>) {
    forall i, j :: 0 <= i < |ledger| && 0 <= j < |ledger| && ledger[i].eventId == ledger[j].eventId ==> i == j
  }

  lemma AppendKeepsOneRow(db: Db, e: Event)
    requires OneRowPerEvent(db.ledger)
    ensures OneRowPerEvent(AppendDb(db, e).0.ledger) && db.ledger <= AppendDb(db, e).0.ledger
  {
  }

  lemma StepKeepsOneRow(db: Db, c: Change, limit: nat)
    requires OneRowPerEvent(db.ledger)
    ensures OneRowPerEvent(Step(db, c, limit).ledger) && db.ledger <= Step(db, c, limit).ledger
  {
    match c
    case Collected(e, _, _) => AppendKeepsOneRow(db, e);
    case FromDomain(e, _) => AppendKeepsOneRow(db, Anonymous(e));
    case RolledUp(_, _) =>
  }

  /** Through any history the ledger only grows at its end and has one row per event id. */
  lemma {:induction false} LedgerIsAppendOnly(db: Db, cs: seq<Change>, limit: nat)
    requires OneRowPerEvent(db.ledger)
    ensures OneRowPerEvent(Run(db, cs, limit).ledger) && db.ledger <= Run(db, cs, limit).ledger
    decreases |cs|
  {
    if cs != [] {
      StepKeepsOneRow(db, cs[0], limit);
      LedgerIsAppendOnly(Step(db, cs[0], limit), cs[1..], limit);
    }
  }
}
