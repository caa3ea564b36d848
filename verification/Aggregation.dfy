/** The one-pass aggregation of a day's events, and the proof that it computes the declared read models. */
module Aggregation {
  import opened Prelude
  import opened AnalyticsEvents

  // ---------------------------------------------------------------- accumulators

  datatype TrafficAcc = TrafficAcc(pageviews: nat, sessions: set<string>, users: set<string>, pages: set<string>)
  datatype VisitorAcc = VisitorAcc(sessions: set<string>, users: set<string>, duration: real)

  function TrafficAt(traffic: map<TrafficKey, TrafficAcc>, k: TrafficKey): TrafficAcc {
    if k in traffic then traffic[k] else TrafficAcc(0, {}, {}, {})
  }

  function VisitorAt(visitors: map<VisitorKey, VisitorAcc>, v: VisitorKey): VisitorAcc {
    if v in visitors then visitors[v] else VisitorAcc({}, {}, 0.0)
  }

  function MetricAt(metrics: map<MetricKey, real>, k: MetricKey): real {
    if k in metrics then metrics[k] else 0.0
  }

  function PagesIn(pageCount: map<string, nat>, s: string): nat {
    if s in pageCount then pageCount[s] else 0
  }

  // ---------------------------------------------------------------- what the accumulators hold

  /** A map with the given keys that has everywhere what is wanted there. */
  ghost predicate Holds<K(!new), A>(m: map<K, A>, keys: set<K>, want: K -> A) {
    m.Keys == keys && forall k :: k in m ==> m[k] == want(k)
  }

  lemma HoldsPut<K(!new), A>(m: map<K, A>, keys: set<K>, keys': set<K>, want: K -> A, want': K -> A, k: K, a: A)
    requires Holds(m, keys, want) && keys' == keys + {k} && want'(k) == a
    requires forall l :: l in keys && l != k ==> want'(l) == want(l)
    ensures Holds(m[k := a], keys', want')
  {
  }

  lemma HoldsStill<K(!new), A>(m: map<K, A>, keys: set<K>, want: K -> A, want': K -> A)
    requires Holds(m, keys, want)
    requires forall l :: l in keys ==> want'(l) == want(l)
    ensures Holds(m, keys, want')
  {
  }

  function Mapped<K, A, B>(m: map<K, A>, f: A -> B): map<K, B> {
    map k | k in m :: f(m[k])
  }

  lemma MappedIsTable<K(!new), A, B>(m: map<K, A>, keys: set<K>, want: K -> A, f: A -> B, value: K -> B)
    requires Holds(m, keys, want) && forall k :: k in keys ==> f(want(k)) == value(k)
    ensures Mapped(m, f) == Tabulate(keys, value)
  {
  }

  function TrafficAccOf(es: seq<Event>, k: TrafficKey): TrafficAcc {
    TrafficAcc(Count(es, ViewAt(k)), SessionsAt(es, k), UsersAt(es, k), PagesAt(es, k))
  }

  function TrafficAccs(es: seq<Event>): TrafficKey -> TrafficAcc {
    (k: TrafficKey) => TrafficAccOf(es, k)
  }

  ghost predicate TrafficSeen(traffic: map<TrafficKey, TrafficAcc>, es: seq<Event>) {
    Holds(traffic, TrafficKeys(es), TrafficAccs(es))
  }

  function VisitorAccOf(es: seq<Event>, v: VisitorKey): VisitorAcc {
    VisitorAcc(VisitorSessions(es, v), VisitorUsers(es, v), Sum(es, DurationAt(v)))
  }

  function VisitorAccs(es: seq<Event>): VisitorKey -> VisitorAcc {
    (v: VisitorKey) => VisitorAccOf(es, v)
  }

  ghost predicate VisitorsSeen(visitors: map<VisitorKey, VisitorAcc>, es: seq<Event>) {
    Holds(visitors, VisitorKeys(es), VisitorAccs(es))
  }

  ghost predicate MetricsSeen(metrics: map<MetricKey, real>, es: seq<Event>) {
    && metrics.Keys == Touched(es)
    && forall k :: k in metrics ==> metrics[k] == Sum(es, Gain(k))
  }

  ghost predicate PagesSeen(pageCount: map<string, nat>, es: seq<Event>) {
    forall s :: s != "" ==> PagesIn(pageCount, s) == Count(es, ViewIn(s))
  }

  // ---------------------------------------------------------------- one event

  function GrowTraffic(acc: TrafficAcc, e: Event): TrafficAcc {
    TrafficAcc(acc.pageviews + if e.kind.PageView? then 1 else 0,
               acc.sessions + if InSession(e) then {e.session} else {},
               acc.users + if ByUser(e) then {e.user} else {},
               acc.pages + if ViewInSession(e) then {e.session} else {})
  }

  lemma TrafficAccGrows(es: seq<Event>, e: Event, k: TrafficKey)
    ensures TrafficAccOf(es + [e], k) == if KeyOf(e) == k then GrowTraffic(TrafficAccOf(es, k), e) else TrafficAccOf(es, k)
  {
    CountAppend(es, e, ViewAt(k));
    SessionsGrow(es, e, k);
    UsersGrow(es, e, k);
    PagesGrow(es, e, k);
  }

  lemma SessionsGrow(es: seq<Event>, e: Event, k: TrafficKey)
    ensures SessionsAt(es + [e], k) == SessionsAt(es, k) + if InSession(e) && KeyOf(e) == k then {e.session} else {}
  {
  }

  lemma UsersGrow(es: seq<Event>, e: Event, k: TrafficKey)
    ensures UsersAt(es + [e], k) == UsersAt(es, k) + if ByUser(e) && KeyOf(e) == k then {e.user} else {}
  {
  }

  lemma PagesGrow(es: seq<Event>, e: Event, k: TrafficKey)
    ensures PagesAt(es + [e], k) == PagesAt(es, k) + if ViewInSession(e) && KeyOf(e) == k then {e.session} else {}
  {
  }

  lemma TrafficUnseen(es: seq<Event>, k: TrafficKey)
    requires k !in TrafficKeys(es)
    ensures TrafficAccOf(es, k) == TrafficAcc(0, {}, {}, {})
  {
    forall e | e in es ensures Opens(e) ==> KeyOf(e) != k {
      if Opens(e) { assert KeyOf(e) in TrafficKeys(es); }
    }
    CountNone(es, ViewAt(k));
  }

  lemma KeysGrow(es: seq<Event>, e: Event)
    ensures TrafficKeys(es + [e]) == TrafficKeys(es) + (if Opens(e) then {KeyOf(e)} else {})
    ensures VisitorKeys(es + [e]) == VisitorKeys(es) + (if IsVisit(e) then {VisitorOf(e)} else {})
  {
  }

  lemma OpenedTraffic(traffic: map<TrafficKey, TrafficAcc>, es: seq<Event>, e: Event)
    requires TrafficSeen(traffic, es) && Opens(e)
    ensures GrowTraffic(TrafficAt(traffic, KeyOf(e)), e) == TrafficAccOf(es + [e], KeyOf(e))
  {
    TrafficAccGrows(es, e, KeyOf(e));
    if KeyOf(e) !in traffic { TrafficUnseen(es, KeyOf(e)); }
  }

  lemma TrafficOpens(traffic: map<TrafficKey, TrafficAcc>, es: seq<Event>, e: Event)
    requires TrafficSeen(traffic, es) && Opens(e)
    ensures TrafficSeen(traffic[KeyOf(e) := GrowTraffic(TrafficAt(traffic, KeyOf(e)), e)], es + [e])
  {
    KeysGrow(es, e);
    OpenedTraffic(traffic, es, e);
    forall k | k != KeyOf(e) ensures TrafficAccs(es + [e])(k) == TrafficAccs(es)(k) { TrafficAccGrows(es, e, k); }
    HoldsPut(traffic, TrafficKeys(es), TrafficKeys(es + [e]), TrafficAccs(es), TrafficAccs(es + [e]), KeyOf(e),
             GrowTraffic(TrafficAt(traffic, KeyOf(e)), e));
  }

  lemma TrafficRests(traffic: map<TrafficKey, TrafficAcc>, es: seq<Event>, e: Event)
    requires TrafficSeen(traffic, es) && !Opens(e)
    ensures TrafficSeen(traffic, es + [e])
  {
    KeysGrow(es, e);
    forall k ensures TrafficAccs(es + [e])(k) == TrafficAccs(es)(k) { TrafficAccGrows(es, e, k); }
    HoldsStill(traffic, TrafficKeys(es), TrafficAccs(es), TrafficAccs(es + [e]));
  }

  lemma TrafficStep(traffic: map<TrafficKey, TrafficAcc>, es: seq<Event>, e: Event)
    requires TrafficSeen(traffic, es)
    ensures Opens(e) ==> TrafficSeen(traffic[KeyOf(e) := GrowTraffic(TrafficAt(traffic, KeyOf(e)), e)], es + [e])
    ensures !Opens(e) ==> TrafficSeen(traffic, es + [e])
  {
    if Opens(e) { TrafficOpens(traffic, es, e); } else { TrafficRests(traffic, es, e); }
  }

  method AddTraffic(traffic: map<TrafficKey, TrafficAcc>, e: Event) returns (grown: map<TrafficKey, TrafficAcc>)
    requires IsVisit(e)
    ensures grown == if Opens(e) then traffic[KeyOf(e) := GrowTraffic(TrafficAt(traffic, KeyOf(e)), e)] else traffic
  {
    var key := KeyOf(e);
    grown := traffic;
    if e.kind.PageView? {
      var acc := TrafficAt(grown, key);
      grown := grown[key := acc.(pageviews := acc.pageviews + 1)];
      if e.session != "" {
        acc := TrafficAt(grown, key);
        grown := grown[key := acc.(pages := acc.pages + {e.session})];
      }
    }
    if e.session != "" {
      var acc := TrafficAt(grown, key);
      grown := grown[key := acc.(sessions := acc.sessions + {e.session})];
    }
    if e.user != "" {
      var acc := TrafficAt(grown, key);
      grown := grown[key := acc.(users := acc.users + {e.user})];
    }
    if Opens(e) {
      assert grown[key] == GrowTraffic(TrafficAt(traffic, key), e);
      assert grown == traffic[key := grown[key]];
    }
  }

  function GrowVisitor(acc: VisitorAcc, e: Event): VisitorAcc {
    VisitorAcc(acc.sessions + if InSession(e) then {e.session} else {},
               acc.users + if ByUser(e) then {e.user} else {},
               acc.duration + OrZero(e.duration))
  }

  lemma VisitorAccGrows(es: seq<Event>, e: Event, v: VisitorKey)
    ensures VisitorAccOf(es + [e], v) ==
            if IsVisit(e) && VisitorOf(e) == v then GrowVisitor(VisitorAccOf(es, v), e) else VisitorAccOf(es, v)
  {
    SumAppend(es, e, DurationAt(v));
    var (before, after) := (VisitorAccOf(es, v), VisitorAccOf(es + [e], v));
    if IsVisit(e) && VisitorOf(e) == v {
      assert after.sessions == before.sessions + if InSession(e) then {e.session} else {};
      assert after.users == before.users + if ByUser(e) then {e.user} else {};
    } else {
      assert after.sessions == before.sessions;
      assert after.users == before.users;
    }
  }

  lemma VisitorUnseen(es: seq<Event>, v: VisitorKey)
    requires v !in VisitorKeys(es)
    ensures VisitorAccOf(es, v) == VisitorAcc({}, {}, 0.0)
  {
    forall e | e in es ensures IsVisit(e) ==> VisitorOf(e) != v {
      if IsVisit(e) { assert VisitorOf(e) in VisitorKeys(es); }
    }
    SumNone(es, DurationAt(v));
  }

  lemma VisitedVisitor(visitors: map<VisitorKey, VisitorAcc>, es: seq<Event>, e: Event)
    requires VisitorsSeen(visitors, es) && IsVisit(e)
    ensures GrowVisitor(VisitorAt(visitors, VisitorOf(e)), e) == VisitorAccOf(es + [e], VisitorOf(e))
  {
    VisitorAccGrows(es, e, VisitorOf(e));
    if VisitorOf(e) !in visitors { VisitorUnseen(es, VisitorOf(e)); }
  }

  lemma VisitorVisits(visitors: map<VisitorKey, VisitorAcc>, es: seq<Event>, e: Event)
    requires VisitorsSeen(visitors, es) && IsVisit(e)
    ensures VisitorsSeen(visitors[VisitorOf(e) := GrowVisitor(VisitorAt(visitors, VisitorOf(e)), e)], es + [e])
  {
    KeysGrow(es, e);
    VisitedVisitor(visitors, es, e);
    forall v | v != VisitorOf(e) ensures VisitorAccs(es + [e])(v) == VisitorAccs(es)(v) { VisitorAccGrows(es, e, v); }
    HoldsPut(visitors, VisitorKeys(es), VisitorKeys(es + [e]), VisitorAccs(es), VisitorAccs(es + [e]), VisitorOf(e),
             GrowVisitor(VisitorAt(visitors, VisitorOf(e)), e));
  }

  lemma VisitorRests(visitors: map<VisitorKey, VisitorAcc>, es: seq<Event>, e: Event)
    requires VisitorsSeen(visitors, es) && !IsVisit(e)
    ensures VisitorsSeen(visitors, es + [e])
  {
    KeysGrow(es, e);
    forall v ensures VisitorAccs(es + [e])(v) == VisitorAccs(es)(v) { VisitorAccGrows(es, e, v); }
    HoldsStill(visitors, VisitorKeys(es), VisitorAccs(es), VisitorAccs(es + [e]));
  }

  lemma VisitorStep(visitors: map<VisitorKey, VisitorAcc>, es: seq<Event>, e: Event)
    requires VisitorsSeen(visitors, es)
    ensures IsVisit(e) ==> VisitorsSeen(visitors[VisitorOf(e) := GrowVisitor(VisitorAt(visitors, VisitorOf(e)), e)], es + [e])
    ensures !IsVisit(e) ==> VisitorsSeen(visitors, es + [e])
  {
    if IsVisit(e) { VisitorVisits(visitors, es, e); } else { VisitorRests(visitors, es, e); }
  }

  method AddVisitor(visitors: map<VisitorKey, VisitorAcc>, e: Event) returns (grown: map<VisitorKey, VisitorAcc>)
    requires IsVisit(e)
    ensures grown == visitors[VisitorOf(e) := GrowVisitor(VisitorAt(visitors, VisitorOf(e)), e)]
  {
    var key := VisitorOf(e);
    grown := visitors;
    if e.session != "" {
      var acc := VisitorAt(grown, key);
      grown := grown[key := acc.(sessions := acc.sessions + {e.session})];
    }
    if e.user != "" {
      var acc := VisitorAt(grown, key);
      grown := grown[key := acc.(users := acc.users + {e.user})];
    }
    var acc := VisitorAt(grown, key);
    grown := grown[key := acc.(duration := acc.duration + OrZero(e.duration))];
    assert grown[key] == GrowVisitor(VisitorAt(visitors, key), e);
    assert grown == visitors[key := grown[key]];
  }

  /** Metrics after one event: each key it touches grows by what it gains. */
  ghost predicate MetricsGrew(before: map<MetricKey, real>, after: map<MetricKey, real>, e: Event) {
    && after.Keys == before.Keys + Gains(e).Keys
    && forall k :: k in after ==> after[k] == MetricAt(before, k) + Gain(k)(e)
  }

  lemma MetricStep(metrics: map<MetricKey, real>, after: map<MetricKey, real>, es: seq<Event>, e: Event)
    requires MetricsSeen(metrics, es) && MetricsGrew(metrics, after, e)
    ensures MetricsSeen(after, es + [e])
  {
    assert Touched(es + [e]) == Touched(es) + Gains(e).Keys;
    forall k | k in after ensures after[k] == Sum(es + [e], Gain(k)) {
      SumAppend(es, e, Gain(k));
      if k !in metrics { MetricUnseen(es, k); }
    }
  }

  lemma MetricUnseen(es: seq<Event>, k: MetricKey)
    requires k !in Touched(es)
    ensures Sum(es, Gain(k)) == 0.0
  {
    forall e | e in es ensures Gain(k)(e) == 0.0 {
      assert forall l :: l in Gains(e) ==> l in Touched(es);
    }
    SumNone(es, Gain(k));
  }

  method AddMetrics(metrics: map<MetricKey, real>, e: Event) returns (grown: map<MetricKey, real>)
    ensures MetricsGrew(metrics, grown, e)
  {
    grown := metrics;
    match e.kind
    case PageView => grown := grown[PAGE_VIEWS := MetricAt(grown, PAGE_VIEWS) + 1.0];
    case PinClick =>
      var k := MetricKey(PinClicks, e.account);
      grown := grown[k := MetricAt(grown, k) + 1.0];
    case PinSave =>
      var k := MetricKey(PinSaves, e.account);
      grown := grown[k := MetricAt(grown, k) + 1.0];
    case AffiliateClick =>
      var k := MetricKey(AffiliateClicks, e.account);
      grown := grown[k := MetricAt(grown, k) + 1.0];
    case Conversion =>
      var k := MetricKey(Conversions, e.account);
      grown := grown[k := MetricAt(grown, k) + 1.0];
    case RevenueAttributed =>
      var amount := OrZero(e.amount);
      var commission := if e.commission.Some? then e.commission.value else amount;
      var k, l := MetricKey(RevenueAmount, e.account), MetricKey(RevenueCommission, e.account);
      grown := grown[k := MetricAt(grown, k) + amount];
      grown := grown[l := MetricAt(grown, l) + commission];
    case PinPublished =>
      var k := MetricKey(PinImpressions, e.account);
      grown := grown[k := MetricAt(grown, k) + OrZero(e.impressions)];
    case SessionStart =>
    case Other =>
  }

  lemma PageStep(pageCount: map<string, nat>, es: seq<Event>, e: Event)
    requires PagesSeen(pageCount, es)
    ensures ViewInSession(e) ==> PagesSeen(pageCount[e.session := PagesIn(pageCount, e.session) + 1], es + [e])
    ensures !ViewInSession(e) ==> PagesSeen(pageCount, es + [e])
  {
    forall s ensures Count(es + [e], ViewIn(s)) == Count(es, ViewIn(s)) + if ViewIn(s)(e) then 1 else 0 {
      CountAppend(es, e, ViewIn(s));
    }
  }

  // ---------------------------------------------------------------- the second pass

  method CountBounced(pages: set<string>, pageCount: map<string, nat>) returns (bounced: nat)
    ensures bounced == |set s | s in pages && PagesIn(pageCount, s) == 1|
  {
    bounced := 0;
    var rest := pages;
    ghost var counted: set<string> := {};
    while rest != {}
      invariant rest <= pages
      invariant counted == set s | s in pages - rest && PagesIn(pageCount, s) == 1
      invariant bounced == |counted|
      decreases rest
    {
      var s :| s in rest;
      rest := rest - {s};
      if PagesIn(pageCount, s) == 1 {
        bounced := bounced + 1;
        counted := counted + {s};
      }
    }
    assert counted == set s | s in pages && PagesIn(pageCount, s) == 1;
  }

  function FinishedTraffic(acc: TrafficAcc, pageCount: map<string, nat>): TrafficRow {
    TrafficRow(|acc.sessions|, acc.pageviews, |acc.users|,
               BounceRate(|set s | s in acc.pages && PagesIn(pageCount, s) == 1|, |acc.sessions|))
  }

  function TrafficFinish(pageCount: map<string, nat>): TrafficAcc -> TrafficRow {
    (acc: TrafficAcc) => FinishedTraffic(acc, pageCount)
  }

  method FinishTraffic(traffic: map<TrafficKey, TrafficAcc>, pageCount: map<string, nat>)
    returns (rows: map<TrafficKey, TrafficRow>)
    ensures rows == Mapped(traffic, TrafficFinish(pageCount))
  {
    rows := map[];
    var rest := traffic.Keys;
    while rest != {}
      invariant rest <= traffic.Keys
      invariant rows.Keys == traffic.Keys - rest
      invariant forall k :: k in rows ==> rows[k] == FinishedTraffic(traffic[k], pageCount)
      decreases rest
    {
      var k :| k in rest;
      var acc := traffic[k];
      var bounced := CountBounced(acc.pages, pageCount);
      rows := rows[k := TrafficRow(|acc.sessions|, acc.pageviews, |acc.users|, BounceRate(bounced, |acc.sessions|))];
      rest := rest - {k};
    }
  }

  lemma TrafficFinished(traffic: map<TrafficKey, TrafficAcc>, pageCount: map<string, nat>, es: seq<Event>)
    requires TrafficSeen(traffic, es) && PagesSeen(pageCount, es)
    ensures Mapped(traffic, TrafficFinish(pageCount)) == TrafficOf(es)
  {
    forall k ensures TrafficFinish(pageCount)(TrafficAccs(es)(k)) == TrafficRows(es)(k) { RowFinished(pageCount, es, k); }
    MappedIsTable(traffic, TrafficKeys(es), TrafficAccs(es), TrafficFinish(pageCount), TrafficRows(es));
  }

  lemma RowFinished(pageCount: map<string, nat>, es: seq<Event>, k: TrafficKey)
    requires PagesSeen(pageCount, es)
    ensures FinishedTraffic(TrafficAccOf(es, k), pageCount) == TrafficRowOf(es, k)
  {
    assert (set s | s in PagesAt(es, k) && PagesIn(pageCount, s) == 1) == BouncedAt(es, k);
  }

  function FinishedVisitor(acc: VisitorAcc): VisitorRow {
    VisitorRow(|acc.sessions|, |acc.users|, Average(acc.duration, |acc.sessions|))
  }

  function VisitorFinish(): VisitorAcc -> VisitorRow {
    (acc: VisitorAcc) => FinishedVisitor(acc)
  }

  method FinishVisitors(visitors: map<VisitorKey, VisitorAcc>) returns (rows: map<VisitorKey, VisitorRow>)
    ensures rows == Mapped(visitors, VisitorFinish())
  {
    rows := map[];
    var rest := visitors.Keys;
    while rest != {}
      invariant rest <= visitors.Keys
      invariant rows.Keys == visitors.Keys - rest
      invariant forall v :: v in rows ==> rows[v] == FinishedVisitor(visitors[v])
      decreases rest
    {
      var v :| v in rest;
      rows := rows[v := FinishedVisitor(visitors[v])];
      rest := rest - {v};
    }
  }

  lemma VisitorsFinished(visitors: map<VisitorKey, VisitorAcc>, es: seq<Event>)
    requires VisitorsSeen(visitors, es)
    ensures Mapped(visitors, VisitorFinish()) == VisitorsOf(es)
  {
    forall v ensures VisitorFinish()(VisitorAccs(es)(v)) == VisitorRows(es)(v) { VisitorFinished(es, v); }
    MappedIsTable(visitors, VisitorKeys(es), VisitorAccs(es), VisitorFinish(), VisitorRows(es));
  }

  lemma VisitorFinished(es: seq<Event>, v: VisitorKey)
    ensures FinishedVisitor(VisitorAccOf(es, v)) == VisitorRowOf(es, v)
  {
  }

  /** The sum of a figure over some keys. */
  method Total(keys: set<TrafficKey>, figure: TrafficKey -> nat) returns (sum: nat)
    ensures sum == SumOver(keys, figure)
  {
    sum := 0;
    var rest := keys;
    while rest != {}
      invariant rest <= keys
      invariant sum + SumOver(rest, figure) == SumOver(keys, figure)
      decreases rest
    {
      var k :| k in rest;
      SumOverSplit(rest, figure, k);
      sum := sum + figure(k);
      rest := rest - {k};
    }
  }

  lemma RowsSummed(es: seq<Event>)
    ensures SumOver(TrafficKeys(es), SessionsIn(TrafficOf(es))) == SumOver(TrafficKeys(es), SessionCount(es))
    ensures SumOver(TrafficKeys(es), UsersIn(TrafficOf(es))) == SumOver(TrafficKeys(es), UserCount(es))
  {
    SumOverSame(TrafficKeys(es), SessionsIn(TrafficOf(es)), SessionCount(es));
    SumOverSame(TrafficKeys(es), UsersIn(TrafficOf(es)), UserCount(es));
  }

  method FinishMetrics(metrics: map<MetricKey, real>, sessions: nat, users: nat, ghost es: seq<Event>)
    returns (totals: map<MetricKey, real>)
    requires MetricsSeen(metrics, es)
    requires sessions == SumOver(TrafficKeys(es), SessionCount(es)) && users == SumOver(TrafficKeys(es), UserCount(es))
    ensures totals == MetricsOf(es)
  {
    totals := metrics[SESSIONS := sessions as real];
    totals := totals[UNIQUE_VISITORS := users as real];
    assert totals.Keys == Touched(es) + {SESSIONS, UNIQUE_VISITORS};
    forall k | k in totals ensures totals[k] == MetricValues(es)(k) {
      if k != SESSIONS && k != UNIQUE_VISITORS { assert totals[k] == metrics[k]; }
    }
  }

  ghost predicate Seen(traffic: map<TrafficKey, TrafficAcc>, visitors: map<VisitorKey, VisitorAcc>,
                       metrics: map<MetricKey, real>, pageCount: map<string, nat>, es: seq<Event>) {
    TrafficSeen(traffic, es) && VisitorsSeen(visitors, es) && MetricsSeen(metrics, es) && PagesSeen(pageCount, es)
  }

  method AddEvent(traffic: map<TrafficKey, TrafficAcc>, visitors: map<VisitorKey, VisitorAcc>,
                  metrics: map<MetricKey, real>, pageCount: map<string, nat>, e: Event, ghost es: seq<Event>)
    returns (traffic': map<TrafficKey, TrafficAcc>, visitors': map<VisitorKey, VisitorAcc>,
             metrics': map<MetricKey, real>, pageCount': map<string, nat>)
    requires Seen(traffic, visitors, metrics, pageCount, es)
    ensures Seen(traffic', visitors', metrics', pageCount', es + [e])
  {
    traffic', visitors', pageCount' := traffic, visitors, pageCount;
    if IsVisit(e) {
      traffic' := AddTraffic(traffic, e);
      if e.kind.PageView? && e.session != "" {
        pageCount' := pageCount[e.session := PagesIn(pageCount, e.session) + 1];
      }
      visitors' := AddVisitor(visitors, e);
    }
    metrics' := AddMetrics(metrics, e);
    assert TrafficSeen(traffic', es + [e]) by { TrafficStep(traffic, es, e); }
    assert VisitorsSeen(visitors', es + [e]) by { VisitorStep(visitors, es, e); }
    assert MetricsSeen(metrics', es + [e]) by { MetricStep(metrics, metrics', es, e); }
    assert PagesSeen(pageCount', es + [e]) by { PageStep(pageCount, es, e); }
  }

  method FinalTraffic(traffic: map<TrafficKey, TrafficAcc>, pageCount: map<string, nat>, ghost es: seq<Event>)
    returns (rows: map<TrafficKey, TrafficRow>)
    requires TrafficSeen(traffic, es) && PagesSeen(pageCount, es)
    ensures rows == TrafficOf(es)
  {
    rows := FinishTraffic(traffic, pageCount);
    TrafficFinished(traffic, pageCount, es);
  }

  method FinalVisitors(visitors: map<VisitorKey, VisitorAcc>, ghost es: seq<Event>)
    returns (rows: map<VisitorKey, VisitorRow>)
    requires VisitorsSeen(visitors, es)
    ensures rows == VisitorsOf(es)
  {
    rows := FinishVisitors(visitors);
    VisitorsFinished(visitors, es);
  }

  method Totals(rows: map<TrafficKey, TrafficRow>, ghost es: seq<Event>) returns (sessions: nat, users: nat)
    requires rows == TrafficOf(es)
    ensures sessions == SumOver(TrafficKeys(es), SessionCount(es)) && users == SumOver(TrafficKeys(es), UserCount(es))
  {
    sessions := Total(rows.Keys, SessionsIn(rows));
    users := Total(rows.Keys, UsersIn(rows));
    assert rows.Keys == TrafficKeys(es);
    RowsSummed(es);
  }

  /** One pass over the events and one over the accumulators yield the declared read models. */
  method AggregateEvents(events: seq<Event>) returns (models: Models)
    ensures models == AggregateOf(events)
  {
    var traffic: map<TrafficKey, TrafficAcc> := map[];
    var visitors: map<VisitorKey, VisitorAcc> := map[];
    var metrics: map<MetricKey, real> := map[];
    var pageCount: map<string, nat> := map[];
    var i := 0;
    while i < |events|
      invariant 0 <= i <= |events|
      invariant Seen(traffic, visitors, metrics, pageCount, events[..i])
    {
      assert events[..i + 1] == events[..i] + [events[i]];
      traffic, visitors, metrics, pageCount := AddEvent(traffic, visitors, metrics, pageCount, events[i], events[..i]);
      i := i + 1;
    }
    assert events[..i] == events;
    var trafficRows := FinalTraffic(traffic, pageCount, events);
    var visitorRows := FinalVisitors(visitors, events);
    var sessions, users := Totals(trafficRows, events);
    var totals := FinishMetrics(metrics, sessions, users, events);
    models := Models(trafficRows, visitorRows, totals);
  }
}
