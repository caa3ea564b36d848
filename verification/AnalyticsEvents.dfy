/**
 Ledger events and what a set of them means: counts, distinct counts and sums, stated without any order
 of processing. Floating point is read as real arithmetic, rounding included.
 */
module AnalyticsEvents {
  import opened Prelude

  type Id = nat

  datatype Kind =
    PageView | SessionStart | PinClick | PinSave | AffiliateClick | Conversion | RevenueAttributed | PinPublished | Other

  /** A ledger row with the traits it carries; an empty session, user or referrer is one that is missing. */
  datatype Event = Event(
    eventId: string,
    niche: Id,
    account: Option<string>,
    kind: Kind,
    session: string,
    user: string,
    referrer: string,
    device: Option<string>,
    country: Option<string>,
    duration: Option<real>,
    amount: Option<real>,
    commission: Option<real>,
    impressions: Option<real>,
    occurredAt: int)

  // ---------------------------------------------------------------- traffic sources

  datatype Source = Pinterest | Google | Direct | Email | Elsewhere

  function Lowered(c: char): char {
    if 'A' <= c <= 'Z' then c + 32 as char else c
  }

  function ToLower(s: string): (r: string)
    ensures |r| == |s| && forall i :: 0 <= i < |s| ==> r[i] == Lowered(s[i])
  {
    seq(|s|, i requires 0 <= i < |s| => Lowered(s[i]))
  }

  predicate Contains(s: string, part: string) {
    exists i :: 0 <= i <= |s| && part <= s[i..]
  }

  function TrafficSource(referrer: string): Source {
    var r := ToLower(referrer);
    if referrer == "" then Direct
    else if Contains(r, "pinterest.") || Contains(r, "pin.it") then Pinterest
    else if Contains(r, "mail.") || Contains(r, "outlook.") || Contains(r, "yahoo.") then Email
    else if Contains(r, "google.") || Contains(r, "bing.") then Google
    else Elsewhere
  }

  // ---------------------------------------------------------------- keys

  datatype TrafficKey = TrafficKey(source: Source, account: Option<string>)
  datatype VisitorKey = VisitorKey(device: string, country: string)
  datatype Metric =
    | Sessions | PageViews | UniqueVisitors | PinClicks | PinSaves | PinImpressions
    | AffiliateClicks | Conversions | RevenueAmount | RevenueCommission
  datatype MetricKey = MetricKey(metric: Metric, account: Option<string>)

  const SESSIONS := MetricKey(Sessions, None)
  const UNIQUE_VISITORS := MetricKey(UniqueVisitors, None)
  const PAGE_VIEWS := MetricKey(PageViews, None)

  predicate IsVisit(e: Event) {
    e.kind.PageView? || e.kind.SessionStart?
  }

  function KeyOf(e: Event): TrafficKey {
    TrafficKey(TrafficSource(e.referrer), e.account)
  }

  /** A trait cut to its column width, or "unknown" when it is missing or empty. */
  function Label(given: Option<string>, width: nat): string {
    var text := if given.None? then "unknown" else given.value;
    var cut := if |text| <= width then text else text[..width];
    if cut == "" then "unknown" else cut
  }

  function VisitorOf(e: Event): VisitorKey {
    VisitorKey(Label(e.device, 30), Label(e.country, 10))
  }

  function OrZero(x: Option<real>): real {
    if x.Some? then x.value else 0.0
  }

  /** What an event adds to the metrics. */
  function Gains(e: Event): map<MetricKey, real> {
    match e.kind
    case PageView => map[PAGE_VIEWS := 1.0]
    case PinClick => map[MetricKey(PinClicks, e.account) := 1.0]
    case PinSave => map[MetricKey(PinSaves, e.account) := 1.0]
    case AffiliateClick => map[MetricKey(AffiliateClicks, e.account) := 1.0]
    case Conversion => map[MetricKey(Conversions, e.account) := 1.0]
    case RevenueAttributed =>
      map[MetricKey(RevenueAmount, e.account) := OrZero(e.amount),
          MetricKey(RevenueCommission, e.account) := if e.commission.Some? then e.commission.value else OrZero(e.amount)]
    case PinPublished => map[MetricKey(PinImpressions, e.account) := OrZero(e.impressions)]
    case _ => map[]
  }

  // ---------------------------------------------------------------- counting events

  function Count(es: seq<Event>, p: Event -> bool): nat {
    if es == [] then 0 else Count(es[..|es| - 1], p) + if p(es[|es| - 1]) then 1 else 0
  }

  function Sum(es: seq<Event>, f: Event -> real): real {
    if es == [] then 0.0 else Sum(es[..|es| - 1], f) + f(es[|es| - 1])
  }

  lemma CountAppend(es: seq<Event>, e: Event, p: Event -> bool)
    ensures Count(es + [e], p) == Count(es, p) + if p(e) then 1 else 0
  {
    assert (es + [e])[..|es|] == es;
  }

  lemma SumAppend(es: seq<Event>, e: Event, f: Event -> real)
    ensures Sum(es + [e], f) == Sum(es, f) + f(e)
  {
    assert (es + [e])[..|es|] == es;
  }

  lemma {:induction false} CountNone(es: seq<Event>, p: Event -> bool)
    requires forall e :: e in es ==> !p(e)
    ensures Count(es, p) == 0
    decreases |es|
  {
    if es != [] { CountNone(es[..|es| - 1], p); }
  }

  lemma {:induction false} CountSome(es: seq<Event>, p: Event -> bool)
    requires exists e :: e in es && p(e)
    ensures Count(es, p) > 0
    decreases |es|
  {
    var rest, last := es[..|es| - 1], es[|es| - 1];
    assert es == rest + [last];
    if !p(last) { CountSome(rest, p); }
  }

  lemma {:induction false} SumNone(es: seq<Event>, f: Event -> real)
    requires forall e :: e in es ==> f(e) == 0.0
    ensures Sum(es, f) == 0.0
    decreases |es|
  {
    if es != [] { SumNone(es[..|es| - 1], f); }
  }

  /** The sum of a function over a finite set, whatever the order. */
  ghost function SumOver<K>(keys: set<K>, f: K -> nat): nat {
    if keys == {} then 0 else var k :| k in keys; f(k) + SumOver(keys - {k}, f)
  }

  lemma {:induction false} SumOverSplit<K>(keys: set<K>, f: K -> nat, k: K)
    requires k in keys
    ensures SumOver(keys, f) == f(k) + SumOver(keys - {k}, f)
    decreases keys
  {
    var first :| first in keys && SumOver(keys, f) == f(first) + SumOver(keys - {first}, f);
    if first != k {
      SumOverSplit(keys - {first}, f, k);
      SumOverSplit(keys - {k}, f, first);
      assert keys - {first} - {k} == keys - {k} - {first};
    }
  }

  lemma {:induction false} SumOverSame<K>(keys: set<K>, f: K -> nat, g: K -> nat)
    requires forall k :: k in keys ==> f(k) == g(k)
    ensures SumOver(keys, f) == SumOver(keys, g)
    decreases keys
  {
    if keys != {} {
      var k :| k in keys;
      SumOverSplit(keys, f, k);
      SumOverSplit(keys, g, k);
      SumOverSame(keys - {k}, f, g);
    }
  }

  // ---------------------------------------------------------------- what a sequence of events means

  function ViewAt(k: TrafficKey): Event -> bool {
    (e: Event) => e.kind.PageView? && KeyOf(e) == k
  }

  function ViewIn(session: string): Event -> bool {
    (e: Event) => e.kind.PageView? && e.session == session
  }

  predicate IsPageView(e: Event) {
    e.kind.PageView?
  }

  predicate InSession(e: Event) {
    IsVisit(e) && e.session != ""
  }

  predicate ByUser(e: Event) {
    IsVisit(e) && e.user != ""
  }

  predicate ViewInSession(e: Event) {
    e.kind.PageView? && e.session != ""
  }

  /** Only a page view, a session or a user makes a traffic row. */
  predicate Opens(e: Event) {
    e.kind.PageView? || InSession(e) || ByUser(e)
  }

  function TrafficKeys(es: seq<Event>): set<TrafficKey> {
    set e | e in es && Opens(e) :: KeyOf(e)
  }

  function SessionsAt(es: seq<Event>, k: TrafficKey): set<string> {
    set e | e in es && InSession(e) && KeyOf(e) == k :: e.session
  }

  function UsersAt(es: seq<Event>, k: TrafficKey): set<string> {
    set e | e in es && ByUser(e) && KeyOf(e) == k :: e.user
  }

  function PagesAt(es: seq<Event>, k: TrafficKey): set<string> {
    set e | e in es && ViewInSession(e) && KeyOf(e) == k :: e.session
  }

  function BouncedAt(es: seq<Event>, k: TrafficKey): set<string> {
    set s | s in PagesAt(es, k) && Count(es, ViewIn(s)) == 1
  }

  function VisitorKeys(es: seq<Event>): set<VisitorKey> {
    set e | e in es && IsVisit(e) :: VisitorOf(e)
  }

  function VisitorSessions(es: seq<Event>, v: VisitorKey): set<string> {
    set e | e in es && InSession(e) && VisitorOf(e) == v :: e.session
  }

  function VisitorUsers(es: seq<Event>, v: VisitorKey): set<string> {
    set e | e in es && ByUser(e) && VisitorOf(e) == v :: e.user
  }

  function DurationAt(v: VisitorKey): Event -> real {
    (e: Event) => if IsVisit(e) && VisitorOf(e) == v then OrZero(e.duration) else 0.0
  }

  function Gain(k: MetricKey): Event -> real {
    (e: Event) => if k in Gains(e) then Gains(e)[k] else 0.0
  }

  function Touched(es: seq<Event>): set<MetricKey> {
    set e, k | e in es && k in Gains(e) :: k
  }

  function SessionCount(es: seq<Event>): TrafficKey -> nat {
    (k: TrafficKey) => |SessionsAt(es, k)|
  }

  function UserCount(es: seq<Event>): TrafficKey -> nat {
    (k: TrafficKey) => |UsersAt(es, k)|
  }

  // ---------------------------------------------------------------- the read models

  datatype TrafficRow = TrafficRow(sessions: nat, pageviews: nat, uniqueVisitors: nat, bounceRate: real)
  datatype VisitorRow = VisitorRow(sessions: nat, uniqueVisitors: nat, avgDuration: real)
  datatype Models = Models(
    traffic: map<TrafficKey, TrafficRow>,
    visitors: map<VisitorKey, VisitorRow>,
    metrics: map<MetricKey, real>)

  /** The nearest integer, a half going to the even neighbour. */
  function Nearest(x: real): int {
    var below := x.Floor;
    var part := x - below as real;
    if part < 0.5 || (part == 0.5 && below % 2 == 0) then below else below + 1
  }

  function BounceRate(bounced: nat, sessions: nat): real {
    if sessions == 0 then 0.0 else Nearest(bounced as real / sessions as real * 10000.0) as real / 10000.0
  }

  function Average(total: real, sessions: nat): real {
    if sessions == 0 then 0.0 else Nearest(total / sessions as real * 100.0) as real / 100.0
  }

  function TrafficRowOf(es: seq<Event>, k: TrafficKey): TrafficRow {
    TrafficRow(|SessionsAt(es, k)|, Count(es, ViewAt(k)), |UsersAt(es, k)|,
               BounceRate(|BouncedAt(es, k)|, |SessionsAt(es, k)|))
  }

  function VisitorRowOf(es: seq<Event>, v: VisitorKey): VisitorRow {
    VisitorRow(|VisitorSessions(es, v)|, |VisitorUsers(es, v)|,
               Average(Sum(es, DurationAt(v)), |VisitorSessions(es, v)|))
  }

  ghost function MetricOf(es: seq<Event>, k: MetricKey): real {
    if k == SESSIONS then SumOver(TrafficKeys(es), SessionCount(es)) as real
    else if k == UNIQUE_VISITORS then SumOver(TrafficKeys(es), UserCount(es)) as real
    else Sum(es, Gain(k))
  }

  function Tabulate<K, V>(keys: set<K>, value: K -> V): map<K, V> {
    map k | k in keys :: value(k)
  }

  function TrafficRows(es: seq<Event>): TrafficKey -> TrafficRow {
    (k: TrafficKey) => TrafficRowOf(es, k)
  }

  function VisitorRows(es: seq<Event>): VisitorKey -> VisitorRow {
    (v: VisitorKey) => VisitorRowOf(es, v)
  }

  ghost function MetricValues(es: seq<Event>): MetricKey -> real {
    (k: MetricKey) => MetricOf(es, k)
  }

  function TrafficOf(es: seq<Event>): map<TrafficKey, TrafficRow> {
    Tabulate(TrafficKeys(es), TrafficRows(es))
  }

  function VisitorsOf(es: seq<Event>): map<VisitorKey, VisitorRow> {
    Tabulate(VisitorKeys(es), VisitorRows(es))
  }

  ghost function MetricsOf(es: seq<Event>): map<MetricKey, real> {
    Tabulate(Touched(es) + {SESSIONS, UNIQUE_VISITORS}, MetricValues(es))
  }

  /** What the aggregation of some events yields. */
  ghost function AggregateOf(es: seq<Event>): Models {
    Models(TrafficOf(es), VisitorsOf(es), MetricsOf(es))
  }

  const NO_MODELS := Models(map[], map[], map[])

  /** The read models of a day's events; a day without events is not aggregated. */
  ghost function ModelsOf(es: seq<Event>): Models {
    if es == [] then NO_MODELS else AggregateOf(es)
  }

  // ---------------------------------------------------------------- the snapshot of a day

  datatype Snapshot = Snapshot(
    sessions: nat,
    pageviews: nat,
    visitors: nat,
    metrics: map<MetricKey, real>,
    devices: map<VisitorKey, nat>)

  function SessionsIn(rows: map<TrafficKey, TrafficRow>): TrafficKey -> nat {
    (k: TrafficKey) => if k in rows then rows[k].sessions else 0
  }

  function PageviewsIn(rows: map<TrafficKey, TrafficRow>): TrafficKey -> nat {
    (k: TrafficKey) => if k in rows then rows[k].pageviews else 0
  }

  function UsersIn(rows: map<TrafficKey, TrafficRow>): TrafficKey -> nat {
    (k: TrafficKey) => if k in rows then rows[k].uniqueVisitors else 0
  }

  function Devices(rows: map<VisitorKey, VisitorRow>): map<VisitorKey, nat> {
    map v | v in rows :: rows[v].sessions
  }

  /** The traffic rows added up, and the metrics and devices as they are. */
  ghost function SnapshotOf(m: Models): Snapshot {
    Snapshot(SumOver(m.traffic.Keys, SessionsIn(m.traffic)), SumOver(m.traffic.Keys, PageviewsIn(m.traffic)),
             SumOver(m.traffic.Keys, UsersIn(m.traffic)), m.metrics, Devices(m.visitors))
  }
}
