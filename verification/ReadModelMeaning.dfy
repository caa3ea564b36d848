/**
 What a day's read models say, value by value: traffic sources, visitor labels, sessions and users of a row, rounded
 rates and averages, and how much of each metric an account has.
 */
module ReadModelMeaning {
  import opened Prelude
  import opened AnalyticsEvents
  import opened AggregateLaws

  // ---------------------------------------------------------------- rounding

  /** The multiple of 1/scale that is nearest to x; of two equally near, the one with an even numerator. */
  predicate RoundsTo(value: real, x: real, scale: real) {
    var n := (value * scale).Floor;
    && value * scale == n as real
    && x * scale - 0.5 <= n as real <= x * scale + 0.5
    && (n as real == x * scale - 0.5 || n as real == x * scale + 0.5 ==> n % 2 == 0)
  }

  lemma NearestRounds(x: real)
    ensures RoundsTo(Nearest(x) as real, x, 1.0)
  {
  }

  lemma RateRounds(bounced: nat, sessions: nat)
    ensures if sessions == 0 then BounceRate(bounced, sessions) == 0.0
            else RoundsTo(BounceRate(bounced, sessions), bounced as real / sessions as real, 10000.0)
  {
    if sessions != 0 { FourPlaces(bounced as real / sessions as real); }
  }

  /** The bounce rate of a row: its bounced sessions out of its sessions to four places, or 0 without sessions. */
  lemma BounceRateMeans(es: seq<Event>, k: TrafficKey)
    requires k in TrafficOf(es)
    ensures
      var (rate, bounced, sessions) := (TrafficOf(es)[k].bounceRate, |BouncedAt(es, k)|, |SessionsAt(es, k)|);
      if sessions == 0 then rate == 0.0 else RoundsTo(rate, bounced as real / sessions as real, 10000.0)
  {
    assert TrafficOf(es)[k] == TrafficRowOf(es, k);
    RateRounds(|BouncedAt(es, k)|, |SessionsAt(es, k)|);
  }

  lemma FourPlaces(x: real)
    ensures RoundsTo(Nearest(x * 10000.0) as real / 10000.0, x, 10000.0)
  {
    NearestRounds(x * 10000.0);
    var n := Nearest(x * 10000.0);
    assert n as real / 10000.0 * 10000.0 == n as real;
  }

  function DurationOf(v: VisitorKey): Event -> real {
    (e: Event) =>
      if (e.kind.PageView? || e.kind.SessionStart?) && VisitorOf(e) == v && e.duration.Some? then e.duration.value else 0.0
  }

  /** The average duration of a visitor row: its visits' durations over its sessions to two places, or 0 without any. */
  lemma AverageMeans(es: seq<Event>, v: VisitorKey)
    requires v in VisitorsOf(es)
    ensures
      var (average, sessions) := (VisitorsOf(es)[v].avgDuration, |VisitorSessions(es, v)|);
      if sessions == 0 then average == 0.0 else RoundsTo(average, Sum(es, DurationOf(v)) / sessions as real, 100.0)
  {
    assert VisitorsOf(es)[v] == VisitorRowOf(es, v);
    assert Sum(es, DurationAt(v)) == Sum(es, DurationOf(v)) by { SumSame(es, DurationAt(v), DurationOf(v)); }
    AverageRounds(Sum(es, DurationOf(v)), |VisitorSessions(es, v)|);
  }

  lemma AverageRounds(total: real, sessions: nat)
    ensures if sessions == 0 then Average(total, sessions) == 0.0
            else RoundsTo(Average(total, sessions), total / sessions as real, 100.0)
  {
    if sessions != 0 { TwoPlaces(total / sessions as real); }
  }

  lemma TwoPlaces(x: real)
    ensures RoundsTo(Nearest(x * 100.0) as real / 100.0, x, 100.0)
  {
    NearestRounds(x * 100.0);
    var n := Nearest(x * 100.0);
    assert n as real / 100.0 * 100.0 == n as real;
  }

  lemma {:induction false} SumSame(es: seq<Event>, f: Event -> real, g: Event -> real)
    requires forall e :: f(e) == g(e)
    ensures Sum(es, f) == Sum(es, g)
    decreases |es|
  {
    if es != [] { SumSame(es[..|es| - 1], f, g); }
  }

  // ---------------------------------------------------------------- rows

  function ViewOf(source: Source, account: Option<string>): Event -> bool {
    (e: Event) => e.kind.PageView? && TrafficSource(e.referrer) == source && e.account == account
  }

  /** A traffic row counts the distinct sessions and users of its visits and their page views. */
  lemma TrafficRowMeans(es: seq<Event>, k: TrafficKey)
    requires k in TrafficOf(es)
    ensures TrafficOf(es)[k].pageviews == Count(es, ViewOf(k.source, k.account))
    ensures TrafficOf(es)[k].sessions ==
            |set e | e in es && (e.kind.PageView? || e.kind.SessionStart?) && e.session != ""
                     && TrafficSource(e.referrer) == k.source && e.account == k.account :: e.session|
    ensures TrafficOf(es)[k].uniqueVisitors ==
            |set e | e in es && (e.kind.PageView? || e.kind.SessionStart?) && e.user != ""
                     && TrafficSource(e.referrer) == k.source && e.account == k.account :: e.user|
  {
    CountSame(es, ViewAt(k), ViewOf(k.source, k.account));
    SessionsMean(es, k);
    UsersMean(es, k);
  }

  lemma SessionsMean(es: seq<Event>, k: TrafficKey)
    ensures SessionsAt(es, k) == set e | e in es && (e.kind.PageView? || e.kind.SessionStart?) && e.session != ""
                                         && TrafficSource(e.referrer) == k.source && e.account == k.account :: e.session
  {
  }

  lemma UsersMean(es: seq<Event>, k: TrafficKey)
    ensures UsersAt(es, k) == set e | e in es && (e.kind.PageView? || e.kind.SessionStart?) && e.user != ""
                                      && TrafficSource(e.referrer) == k.source && e.account == k.account :: e.user
  {
  }

  /** A row's bounced sessions are those with a page view of the row and no other page view anywhere. */
  lemma BouncedMeans(es: seq<Event>, k: TrafficKey, s: string)
    ensures s in BouncedAt(es, k) <==>
            && s != "" && Count(es, (e: Event) => e.kind.PageView? && e.session == s) == 1
            && exists e :: e in es && e.kind.PageView? && e.session == s && TrafficSource(e.referrer) == k.source
                           && e.account == k.account
  {
    CountSame(es, ViewIn(s), (e: Event) => e.kind.PageView? && e.session == s);
  }

  lemma VisitorRowMeans(es: seq<Event>, v: VisitorKey)
    requires v in VisitorsOf(es)
    ensures
      var row := VisitorsOf(es)[v];
      && row.sessions == |set e | e in es && (e.kind.PageView? || e.kind.SessionStart?) && e.session != ""
                                 && VisitorOf(e) == v :: e.session|
      && row.uniqueVisitors == |set e | e in es && (e.kind.PageView? || e.kind.SessionStart?) && e.user != ""
                                 && VisitorOf(e) == v :: e.user|
  {
    assert VisitorSessions(es, v) == set e | e in es && (e.kind.PageView? || e.kind.SessionStart?) && e.session != ""
                                             && VisitorOf(e) == v :: e.session;
    assert VisitorUsers(es, v) == set e | e in es && (e.kind.PageView? || e.kind.SessionStart?) && e.user != ""
                                          && VisitorOf(e) == v :: e.user;
  }

  lemma {:induction false} CountSame(es: seq<Event>, p: Event -> bool, q: Event -> bool)
    requires forall e :: p(e) == q(e)
    ensures Count(es, p) == Count(es, q)
    decreases |es|
  {
    if es != [] { CountSame(es[..|es| - 1], p, q); }
  }

  // ---------------------------------------------------------------- keys

  /** A row exists for every key of a page view, or of a visit with a session or a user, and for no other. */
  lemma TrafficKeysMean(es: seq<Event>, k: TrafficKey)
    ensures k in TrafficOf(es) <==>
            exists e :: e in es && TrafficSource(e.referrer) == k.source && e.account == k.account
                        && (e.kind.PageView? || (e.kind.SessionStart? && (e.session != "" || e.user != "")))
  {
    if e :| e in es && TrafficSource(e.referrer) == k.source && e.account == k.account
            && (e.kind.PageView? || (e.kind.SessionStart? && (e.session != "" || e.user != "")))
    {
      assert Opens(e) && KeyOf(e) == k;
    }
  }

  ghost predicate Has(s: string, part: string) {
    exists before, after :: s == before + part + after
  }

  /** The text with its ASCII capitals lowered. */
  function Lower(s: string): string {
    seq(|s|, i requires 0 <= i < |s| => if 'A' <= s[i] <= 'Z' then (s[i] as int + 32) as char else s[i])
  }

  /** The sources, in the order they are tried. */
  lemma SourceMeans(referrer: string)
    ensures
      var (r, source) := (Lower(referrer), TrafficSource(referrer));
      var pin := Has(r, "pinterest.") || Has(r, "pin.it");
      var mail := Has(r, "mail.") || Has(r, "outlook.") || Has(r, "yahoo.");
      var search := Has(r, "google.") || Has(r, "bing.");
      && (source == Direct <==> referrer == "")
      && (source == Pinterest <==> pin)
      && (source == Email <==> !pin && mail)
      && (source == Google <==> !pin && !mail && search)
      && (source == Elsewhere <==> referrer != "" && !pin && !mail && !search)
  {
    var r := ToLower(referrer);
    assert Lower(referrer) == r;
    ContainsIsHas(r, "pinterest.");
    ContainsIsHas(r, "pin.it");
    ContainsIsHas(r, "mail.");
    ContainsIsHas(r, "outlook.");
    ContainsIsHas(r, "yahoo.");
    ContainsIsHas(r, "google.");
    ContainsIsHas(r, "bing.");
    EmptyHasNone("pinterest.");
    EmptyHasNone("pin.it");
    EmptyHasNone("mail.");
    EmptyHasNone("outlook.");
    EmptyHasNone("yahoo.");
  }

  lemma ContainsIsHas(s: string, part: string)
    ensures Contains(s, part) <==> Has(s, part)
  {
    if Contains(s, part) {
      var i :| 0 <= i <= |s| && part <= s[i..];
      FoundIsHad(s, part, i);
    }
    if Has(s, part) {
      var before, after :| s == before + part + after;
      HadIsFound(before, part, after);
    }
  }

  lemma FoundIsHad(s: string, part: string, i: nat)
    requires i <= |s| && part <= s[i..]
    ensures Has(s, part)
  {
    var before, after := s[..i], s[i..][|part|..];
    assert s[i..] == part + after;
    assert s == before + part + after;
  }

  lemma HadIsFound(before: string, part: string, after: string)
    ensures Contains(before + part + after, part)
  {
    var s := before + part + after;
    assert s[|before|..] == part + after;
  }

  lemma EmptyHasNone(part: string)
    requires part != ""
    ensures !Has("", part)
  {
  }

  /** A visitor's labels are the event's traits, cut to 30 and 10 characters, or "unknown". */
  lemma VisitorMeans(e: Event)
    ensures
      var v := VisitorOf(e);
      && LabelMeans(e.device, 30, v.device) && LabelMeans(e.country, 10, v.country)
  {
  }

  predicate LabelMeans(given: Option<string>, width: nat, shown: string) {
    if given.None? || given.value == "" then shown == "unknown"
    else shown <= given.value && |shown| == Min(width, |given.value|)
  }

  // ---------------------------------------------------------------- metrics

  /** What a metric of an account amounts to; one that has no row amounts to nothing. */
  ghost function Amount(es: seq<Event>, metric: Metric, account: Option<string>): real {
    var k := MetricKey(metric, account);
    if k in MetricsOf(es) then MetricsOf(es)[k] else 0.0
  }

  lemma UntouchedIsNothing(es: seq<Event>, k: MetricKey)
    requires k !in Touched(es)
    ensures Sum(es, Gain(k)) == 0.0
  {
    forall e | e in es ensures Gain(k)(e) == 0.0 {
      assert k in Gains(e) ==> k in Touched(es);
    }
    SumNone(es, Gain(k));
  }

  lemma AmountIsGain(es: seq<Event>, metric: Metric, account: Option<string>)
    requires metric != Sessions && metric != UniqueVisitors
    ensures Amount(es, metric, account) == Sum(es, Gain(MetricKey(metric, account)))
  {
    var k := MetricKey(metric, account);
    if k !in Touched(es) { UntouchedIsNothing(es, k); }
  }

  function KindOf(kind: Kind, account: Option<string>): Event -> bool {
    (e: Event) => e.kind == kind && e.account == account
  }

  /** Clicks, saves, affiliate clicks and conversions are counted by account. */
  lemma ClicksMean(es: seq<Event>, account: Option<string>)
    ensures Amount(es, PinClicks, account) == Count(es, KindOf(PinClick, account)) as real
  {
    AmountIsGain(es, PinClicks, account);
    PinClicksAdd(es, account);
  }

  lemma {:induction false} PinClicksAdd(es: seq<Event>, account: Option<string>)
    ensures Sum(es, Gain(MetricKey(PinClicks, account))) == Count(es, KindOf(PinClick, account)) as real
    decreases |es|
  {
    if es != [] { PinClicksAdd(es[..|es| - 1], account); }
  }

  lemma SavesMean(es: seq<Event>, account: Option<string>)
    ensures Amount(es, PinSaves, account) == Count(es, KindOf(PinSave, account)) as real
  {
    AmountIsGain(es, PinSaves, account);
    PinSavesAdd(es, account);
  }

  lemma {:induction false} PinSavesAdd(es: seq<Event>, account: Option<string>)
    ensures Sum(es, Gain(MetricKey(PinSaves, account))) == Count(es, KindOf(PinSave, account)) as real
    decreases |es|
  {
    if es != [] { PinSavesAdd(es[..|es| - 1], account); }
  }

  lemma AffiliateClicksMean(es: seq<Event>, account: Option<string>)
    ensures Amount(es, AffiliateClicks, account) == Count(es, KindOf(AffiliateClick, account)) as real
  {
    AmountIsGain(es, AffiliateClicks, account);
    AffiliateClicksAdd(es, account);
  }

  lemma {:induction false} AffiliateClicksAdd(es: seq<Event>, account: Option<string>)
    ensures Sum(es, Gain(MetricKey(AffiliateClicks, account))) == Count(es, KindOf(AffiliateClick, account)) as real
    decreases |es|
  {
    if es != [] { AffiliateClicksAdd(es[..|es| - 1], account); }
  }

  lemma ConversionsMean(es: seq<Event>, account: Option<string>)
    ensures Amount(es, Conversions, account) == Count(es, KindOf(Conversion, account)) as real
  {
    AmountIsGain(es, Conversions, account);
    ConversionsAdd(es, account);
  }

  lemma {:induction false} ConversionsAdd(es: seq<Event>, account: Option<string>)
    ensures Sum(es, Gain(MetricKey(Conversions, account))) == Count(es, KindOf(Conversion, account)) as real
    decreases |es|
  {
    if es != [] { ConversionsAdd(es[..|es| - 1], account); }
  }

  /** Page views are one number, for no account in particular. */
  lemma PageViewsMean(es: seq<Event>, account: Option<string>)
    ensures Amount(es, PageViews, account) == if account.None? then Count(es, IsPageView) as real else 0.0
  {
    AmountIsGain(es, PageViews, account);
    if account.None? {
      ViewsAsMetric(es);
    } else {
      forall e | e in es ensures Gain(MetricKey(PageViews, account))(e) == 0.0 {}
      SumNone(es, Gain(MetricKey(PageViews, account)));
    }
  }

  /** Revenue, commission and impressions are added up by account; a commission not given is the amount. */
  lemma RevenueMeans(es: seq<Event>, account: Option<string>)
    ensures Amount(es, RevenueAmount, account) == Sum(es, RevenueOf(account))
  {
    AmountIsGain(es, RevenueAmount, account);
    RevenueAmountAdd(es, account);
  }

  lemma {:induction false} RevenueAmountAdd(es: seq<Event>, account: Option<string>)
    ensures Sum(es, Gain(MetricKey(RevenueAmount, account))) == Sum(es, RevenueOf(account))
    decreases |es|
  {
    if es != [] { RevenueAmountAdd(es[..|es| - 1], account); }
  }

  lemma CommissionMeans(es: seq<Event>, account: Option<string>)
    ensures Amount(es, RevenueCommission, account) == Sum(es, CommissionOf(account))
  {
    AmountIsGain(es, RevenueCommission, account);
    RevenueCommissionAdd(es, account);
  }

  lemma {:induction false} RevenueCommissionAdd(es: seq<Event>, account: Option<string>)
    ensures Sum(es, Gain(MetricKey(RevenueCommission, account))) == Sum(es, CommissionOf(account))
    decreases |es|
  {
    if es != [] { RevenueCommissionAdd(es[..|es| - 1], account); }
  }

  lemma ImpressionsMean(es: seq<Event>, account: Option<string>)
    ensures Amount(es, PinImpressions, account) == Sum(es, ImpressionsOf(account))
  {
    AmountIsGain(es, PinImpressions, account);
    PinImpressionsAdd(es, account);
  }

  lemma {:induction false} PinImpressionsAdd(es: seq<Event>, account: Option<string>)
    ensures Sum(es, Gain(MetricKey(PinImpressions, account))) == Sum(es, ImpressionsOf(account))
    decreases |es|
  {
    if es != [] { PinImpressionsAdd(es[..|es| - 1], account); }
  }

  function RevenueOf(account: Option<string>): Event -> real {
    (e: Event) =>
      if e.kind.RevenueAttributed? && e.account == account && e.amount.Some? then e.amount.value else 0.0
  }

  function CommissionOf(account: Option<string>): Event -> real {
    (e: Event) =>
      if !(e.kind.RevenueAttributed? && e.account == account) then 0.0
      else if e.commission.Some? then e.commission.value
      else if e.amount.Some? then e.amount.value
      else 0.0
  }

  function ImpressionsOf(account: Option<string>): Event -> real {
    (e: Event) =>
      if e.kind.PinPublished? && e.account == account && e.impressions.Some? then e.impressions.value else 0.0
  }
}
