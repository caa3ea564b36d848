/**
 Days with more events than a rollup lists. Which slices still come out right, and a history after which one is a
 mixture: rows of an older rollup beside the totals of the newest events alone.
 */
module RollupLimit {
  import opened Prelude
  import opened AnalyticsEvents
  import opened AggregateLaws
  import opened Rollup
  import opened RollupLaws

  // ---------------------------------------------------------------- exactly when a slice comes out right

  /** What the listed events give is right as far as it goes, and what they lack is there already. */
  ghost predicate MakesUp<K(!new), V>(table: Table<K, V>, niche: Id, day: int, listed: map<K, V>, full: map<K, V>) {
    && (forall k :: k in listed ==> k in full && listed[k] == full[k])
    && (forall k :: k in full && k !in listed ==> Cell(niche, day, k) in table && table[Cell(niche, day, k)] == full[k])
  }

  lemma UpsertAt<K, V>(table: Table<K, V>, niche: Id, day: int, rows: map<K, V>, k: K)
    ensures
      var (after, cell) := (Upsert(table, niche, day, rows), Cell(niche, day, k));
      && (cell in after <==> k in rows || cell in table)
      && (cell in after ==> after[cell] == if k in rows then rows[k] else table[cell])
  {
  }

  lemma UpsertExactly<K(!new), V>(table: Table<K, V>, niche: Id, day: int, listed: map<K, V>, full: map<K, V>)
    requires SliceWithin(table, niche, day, full.Keys)
    ensures SliceIs(Upsert(table, niche, day, listed), niche, day, full) <==> MakesUp(table, niche, day, listed, full)
  {
    var after := Upsert(table, niche, day, listed);
    forall k
      ensures Cell(niche, day, k) in after <==> k in listed || Cell(niche, day, k) in table
      ensures Cell(niche, day, k) in after ==>
                after[Cell(niche, day, k)] == if k in listed then listed[k] else table[Cell(niche, day, k)]
    {
      UpsertAt(table, niche, day, listed, k);
    }
    OverlaidExactly(table, after, niche, day, listed, full);
  }

  lemma OverlaidExactly<K(!new), V>(table: Table<K, V>, after: Table<K, V>, niche: Id, day: int, listed: map<K, V>,
                                    full: map<K, V>)
    requires SliceWithin(table, niche, day, full.Keys)
    requires forall k :: Cell(niche, day, k) in after <==> k in listed || Cell(niche, day, k) in table
    requires forall k :: Cell(niche, day, k) in after ==>
               after[Cell(niche, day, k)] == if k in listed then listed[k] else table[Cell(niche, day, k)]
    ensures SliceIs(after, niche, day, full) <==> MakesUp(table, niche, day, listed, full)
  {
  }

  lemma SnapshotExactly(table: Table<SnapshotKind, Snapshot>, niche: Id, day: int, s: Snapshot, full: Snapshot)
    requires SliceWithin(table, niche, day, SnapshotKinds(day))
    ensures SliceIs(Upsert(table, niche, day, SnapshotRows(day, s)), niche, day, SnapshotRows(day, full)) <==> s == full
  {
    UpsertExactly(table, niche, day, SnapshotRows(day, s), SnapshotRows(day, full));
    assert Daily in SnapshotRows(day, s);
  }

  /**
   However many events a day has: after its rollup the slice is the aggregate of them all exactly if the listed events'
   rows are those of all events, the rows they lack were right before, and their totals are the totals of all.
   */
  lemma RollupExact(db: Db, niche: Id, day: int, limit: nat)
    requires NoStaleRows(db, niche, day)
    ensures
      var (listed, full) := (ModelsOf(ListDay(db.ledger, niche, day, limit)), ModelsOf(DayEvents(db.ledger, niche, day)));
      Agrees(RollupDayDb(db, niche, day, limit), niche, day) <==>
      && MakesUp(db.traffic, niche, day, listed.traffic, full.traffic)
      && MakesUp(db.visitors, niche, day, listed.visitors, full.visitors)
      && MakesUp(db.metrics, niche, day, listed.metrics, full.metrics)
      && SnapshotOf(listed) == SnapshotOf(full)
  {
    var (listed, full) := (ModelsOf(ListDay(db.ledger, niche, day, limit)), ModelsOf(DayEvents(db.ledger, niche, day)));
    RowKeys(DayEvents(db.ledger, niche, day));
    UpsertExactly(db.traffic, niche, day, listed.traffic, full.traffic);
    UpsertExactly(db.visitors, niche, day, listed.visitors, full.visitors);
    UpsertExactly(db.metrics, niche, day, listed.metrics, full.metrics);
    SnapshotExactly(db.snapshots, niche, day, SnapshotOf(listed), SnapshotOf(full));
  }

  /** So a rollup that does not list all page views of its day never leaves the slice right. */
  lemma MissedViewsShow(db: Db, niche: Id, day: int, limit: nat)
    requires NoStaleRows(db, niche, day)
    requires Count(ListDay(db.ledger, niche, day, limit), IsPageView) != Count(DayEvents(db.ledger, niche, day), IsPageView)
    ensures !Agrees(RollupDayDb(db, niche, day, limit), niche, day)
  {
    RollupExact(db, niche, day, limit);
    SnapshotTotals(ListDay(db.ledger, niche, day, limit));
    SnapshotTotals(DayEvents(db.ledger, niche, day));
  }

  // ---------------------------------------------------------------- a day that comes out mixed

  function View(id: string, account: Option<string>, at: int): Event {
    Event(id, 0, account, PageView, "", "", "", None, None, None, None, None, None, at)
  }

  const OLD := View("", Some("old"), 0)

  function NewView(n: nat): Event {
    View(seq(n + 1, i => 'x'), None, 1)
  }

  function NewViews(n: nat): seq<Event> {
    if n == 0 then [] else NewViews(n - 1) + [NewView(n)]
  }

  function Collects(n: nat): seq<Change> {
    if n == 0 then [] else Collects(n - 1) + [Collected(NewView(n), true, true)]
  }

  /** An old view is rolled up; then as many new ones as a rollup lists come in, and the day is rolled up again. */
  function MixedHistory(limit: nat): seq<Change> {
    UntilSecond(limit) + [RolledUp(0, 0)]
  }

  function UntilSecond(limit: nat): seq<Change> {
    [Collected(OLD, true, true), RolledUp(0, 0)] + Collects(limit)
  }

  lemma {:induction false} RunAppends(db: Db, a: seq<Change>, b: seq<Change>, limit: nat)
    ensures Run(db, a + b, limit) == Run(Run(db, a, limit), b, limit)
    decreases |a|
  {
    if a == [] {
      assert a + b == b;
    } else {
      assert (a + b)[0] == a[0] && (a + b)[1..] == a[1..] + b;
      RunAppends(Step(db, a[0], limit), a[1..], b, limit);
    }
  }

  lemma RunOne(db: Db, c: Change, limit: nat)
    ensures Run(db, [c], limit) == Step(db, c, limit)
  {
    assert [c][1..] == [] && Run(Step(db, c, limit), [], limit) == Step(db, c, limit);
  }

  lemma {:induction false} NewViewsAre(n: nat)
    ensures |NewViews(n)| == n && forall k :: 0 <= k < n ==> NewViews(n)[k] == NewView(k + 1)
  {
    if n > 0 { NewViewsAre(n - 1); }
  }

  lemma {:induction false} NewViewsComeIn(db: Db, n: nat, limit: nat)
    requires db.ledger == [OLD]
    ensures Run(db, Collects(n), limit) == db.(ledger := [OLD] + NewViews(n))
  {
    if n == 0 {
      assert [OLD] + [] == [OLD];
    } else {
      NewViewsComeIn(db, n - 1, limit);
      RunAppends(db, Collects(n - 1), [Collected(NewView(n), true, true)], limit);
      RunOne(db.(ledger := [OLD] + NewViews(n - 1)), Collected(NewView(n), true, true), limit);
      NewIdIsNew(n);
      assert [OLD] + NewViews(n - 1) + [NewView(n)] == [OLD] + NewViews(n);
    }
  }

  lemma NewIdIsNew(n: nat)
    requires n > 0
    ensures !Recorded([OLD] + NewViews(n - 1), NewView(n).eventId)
  {
    NewViewsAre(n - 1);
    var ledger := [OLD] + NewViews(n - 1);
    forall i | 0 <= i < |ledger| ensures |ledger[i].eventId| <= n {
      if i > 0 { assert ledger[i] == NewView(i); }
    }
  }

  lemma {:induction false} AllOnTheDay(n: nat)
    ensures DayEvents([OLD] + NewViews(n), 0, 0) == [OLD] + NewViews(n)
  {
    if n == 0 {
      AppendedDay([], OLD, 0, 0);
      assert [] + [OLD] == [OLD] == [OLD] + [] && DayEvents([], 0, 0) == [];
    } else {
      AllOnTheDay(n - 1);
      AppendedDay([OLD] + NewViews(n - 1), NewView(n), 0, 0);
      assert [OLD] + NewViews(n - 1) + [NewView(n)] == [OLD] + NewViews(n);
    }
  }

  lemma {:induction false} InsertBeforeOld(news: seq<Event>, e: Event)
    requires e.occurredAt == 1 && forall k :: 0 <= k < |news| ==> news[k].occurredAt == 1
    ensures InsertByTime(news + [OLD], e) == news + [e] + [OLD]
    decreases |news|
  {
    if news == [] {
      assert [] + [OLD] == [OLD] && InsertByTime([OLD], e) == [e] + [OLD];
    } else {
      InsertBeforeOld(news[1..], e);
      assert (news + [OLD])[1..] == news[1..] + [OLD];
      assert [news[0]] + (news[1..] + [e] + [OLD]) == news + [e] + [OLD];
    }
  }

  lemma SortAppend(es: seq<Event>, e: Event)
    ensures SortByTime(es + [e]) == InsertByTime(SortByTime(es), e)
  {
    assert (es + [e])[..|es|] == es;
  }

  lemma {:induction false} NewestAreNew(n: nat)
    ensures SortByTime([OLD] + NewViews(n)) == NewViews(n) + [OLD]
  {
    if n == 0 {
      SortAppend([], OLD);
      assert [] + [OLD] == [OLD] && [OLD] + [] == [OLD] && SortByTime([]) == [];
    } else {
      NewestAreNew(n - 1);
      NewViewsAre(n - 1);
      assert [OLD] + NewViews(n) == [OLD] + NewViews(n - 1) + [NewView(n)];
      SortAppend([OLD] + NewViews(n - 1), NewView(n));
      InsertBeforeOld(NewViews(n - 1), NewView(n));
    }
  }

  lemma {:induction false} NewAreViews(n: nat)
    ensures Count(NewViews(n), IsPageView) == n
  {
    if n > 0 {
      NewAreViews(n - 1);
      CountAppend(NewViews(n - 1), NewView(n), IsPageView);
    }
  }

  lemma AllAreViews(n: nat)
    ensures Count([OLD] + NewViews(n), IsPageView) == n + 1
  {
    NewAreViews(n);
    CountSplit([OLD], NewViews(n), IsPageView);
    assert [OLD] == [] + [OLD];
    CountAppend([], OLD, IsPageView);
  }

  lemma OldIsElsewhere(n: nat)
    ensures KeyOf(OLD) !in TrafficKeys(NewViews(n))
  {
    NewViewsAre(n);
  }

  /** The tables after the first rollup. */
  lemma AfterFirst(limit: nat) returns (db: Db)
    requires limit > 0
    ensures db == Run(EMPTY, [Collected(OLD, true, true), RolledUp(0, 0)], limit)
    ensures db.ledger == [OLD] && Cell(0, 0, KeyOf(OLD)) in db.traffic
  {
    var db1 := Step(EMPTY, Collected(OLD, true, true), limit);
    assert db1.ledger == [OLD] by { assert [] + [OLD] == [OLD]; }
    OldIsRolledUp(db1, limit);
    db := RollupDayDb(db1, 0, 0, limit);
    assert [Collected(OLD, true, true), RolledUp(0, 0)][1..] == [RolledUp(0, 0)];
    RunOne(db1, RolledUp(0, 0), limit);
  }

  /** The tables before the second rollup. */
  lemma BeforeSecond(limit: nat) returns (db: Db)
    requires limit > 0
    ensures db == Run(EMPTY, UntilSecond(limit), limit)
    ensures db.ledger == [OLD] + NewViews(limit) && Cell(0, 0, KeyOf(OLD)) in db.traffic
  {
    var db1 := AfterFirst(limit);
    RunAppends(EMPTY, [Collected(OLD, true, true), RolledUp(0, 0)], Collects(limit), limit);
    NewViewsComeIn(db1, limit, limit);
    db := Run(db1, Collects(limit), limit);
  }

  lemma OldIsRolledUp(db: Db, limit: nat)
    requires db.ledger == [OLD] && limit > 0
    ensures Cell(0, 0, KeyOf(OLD)) in RollupDayDb(db, 0, 0, limit).traffic
    ensures RollupDayDb(db, 0, 0, limit).ledger == [OLD]
  {
    OldIsListed(limit);
    RowKeys([OLD]);
    assert OLD in [OLD] && Opens(OLD) && KeyOf(OLD) in TrafficKeys([OLD]);
    UpsertAt(db.traffic, 0, 0, ModelsOf([OLD]).traffic, KeyOf(OLD));
  }

  lemma OldIsListed(limit: nat)
    requires limit > 0
    ensures ListDay([OLD], 0, 0, limit) == [OLD]
  {
    AllOnTheDay(0);
    NewestAreNew(0);
    assert [OLD] + NewViews(0) == [OLD] && NewViews(0) + [OLD] == [OLD];
  }

  lemma NewAreListed(limit: nat)
    ensures ListDay([OLD] + NewViews(limit), 0, 0, limit) == NewViews(limit)
    ensures DayEvents([OLD] + NewViews(limit), 0, 0) == [OLD] + NewViews(limit)
  {
    AllOnTheDay(limit);
    NewestAreNew(limit);
    NewViewsAre(limit);
  }

  lemma NewMetric(limit: nat)
    requires limit > 0
    ensures PAGE_VIEWS in ModelsOf(NewViews(limit)).metrics
    ensures ModelsOf(NewViews(limit)).metrics[PAGE_VIEWS] == limit as real
  {
    NewViewsAre(limit);
    NewAreViews(limit);
    PageViewMetric(NewViews(limit));
  }

  /** A rollup of the newest views alone. */
  lemma RolledUpShort(db: Db, limit: nat)
    requires limit > 0 && db.ledger == [OLD] + NewViews(limit) && Cell(0, 0, KeyOf(OLD)) in db.traffic
    ensures
      var after := RollupDayDb(db, 0, 0, limit);
      && after.ledger == db.ledger && Cell(0, 0, KeyOf(OLD)) in after.traffic
      && Cell(0, 0, PAGE_VIEWS) in after.metrics && after.metrics[Cell(0, 0, PAGE_VIEWS)] == limit as real
  {
    NewAreListed(limit);
    NewMetric(limit);
    var m := ModelsOf(NewViews(limit));
    UpsertAt(db.traffic, 0, 0, m.traffic, KeyOf(OLD));
    UpsertAt(db.metrics, 0, 0, m.metrics, PAGE_VIEWS);
  }

  lemma ShortIsWrong(db: Db, limit: nat)
    requires db.ledger == [OLD] + NewViews(limit) && NoStaleRows(db, 0, 0)
    ensures !Agrees(RollupDayDb(db, 0, 0, limit), 0, 0)
  {
    NewAreListed(limit);
    NewAreViews(limit);
    AllAreViews(limit);
    MissedViewsShow(db, 0, 0, limit);
  }

  /**
   The old view's traffic row is there although no listed event has its key, while the page-view metric counts the
   listed views alone: the slice is neither the newest events' aggregate nor all events'.
   */
  ghost predicate Mixed(db: Db, limit: nat) {
    && Count(DayEvents(db.ledger, 0, 0), IsPageView) == limit + 1
    && KeyOf(OLD) !in TrafficKeys(ListDay(db.ledger, 0, 0, limit)) && Cell(0, 0, KeyOf(OLD)) in db.traffic
    && Cell(0, 0, PAGE_VIEWS) in db.metrics && db.metrics[Cell(0, 0, PAGE_VIEWS)] == limit as real
    && !Agrees(db, 0, 0)
  }

  lemma MixedAfter(db: Db, limit: nat)
    requires limit > 0 && db.ledger == [OLD] + NewViews(limit) && Cell(0, 0, KeyOf(OLD)) in db.traffic
    requires NoStaleRows(db, 0, 0)
    ensures Mixed(RollupDayDb(db, 0, 0, limit), limit)
  {
    RolledUpShort(db, limit);
    ShortIsWrong(db, limit);
    NewAreListed(limit);
    AllAreViews(limit);
    OldIsElsewhere(limit);
  }

  lemma MixedInTheEnd(history: seq<Change>, limit: nat)
    requires var db := Run(EMPTY, history, limit);
             limit > 0 && db.ledger == [OLD] + NewViews(limit) && Cell(0, 0, KeyOf(OLD)) in db.traffic
    ensures Mixed(Run(EMPTY, history + [RolledUp(0, 0)], limit), limit)
  {
    var before := Run(EMPTY, history, limit);
    assert Run(EMPTY, history + [RolledUp(0, 0)], limit) == RollupDayDb(before, 0, 0, limit) by {
      RunAppends(EMPTY, history, [RolledUp(0, 0)], limit);
      RunOne(before, RolledUp(0, 0), limit);
    }
    assert NoStaleRows(before, 0, 0) by {
      NothingStaleAtFirst();
      NeverStale(EMPTY, history, limit, 0, 0);
    }
    MixedAfter(before, limit);
  }

  /** For every limit such a history leaves a mixture. */
  lemma DayComesOutMixed(limit: nat)
    requires limit > 0
    ensures Mixed(Run(EMPTY, MixedHistory(limit), limit), limit)
  {
    var before := BeforeSecond(limit);
    MixedInTheEnd(UntilSecond(limit), limit);
  }

  lemma NothingStaleAtFirst()
    ensures NoStaleRows(EMPTY, 0, 0)
  {
  }
}
