/** Laws of the daily read models: order does not matter, page views and bounces are conserved. */
module AggregateLaws {
  import opened Prelude
  import opened AnalyticsEvents

  // ---------------------------------------------------------------- order does not matter

  lemma {:induction false} CountSplit(a: seq<Event>, b: seq<Event>, p: Event -> bool)
    ensures Count(a + b, p) == Count(a, p) + Count(b, p)
    decreases |b|
  {
    if b == [] {
      assert a + b == a;
    } else {
      var n := |b| - 1;
      CountSplit(a, b[..n], p);
      assert a + b == (a + b[..n]) + [b[n]];
      CountAppend(a + b[..n], b[n], p);
    }
  }

  lemma {:induction false} SumSplit(a: seq<Event>, b: seq<Event>, f: Event -> real)
    ensures Sum(a + b, f) == Sum(a, f) + Sum(b, f)
    decreases |b|
  {
    if b == [] {
      assert a + b == a;
    } else {
      var n := |b| - 1;
      SumSplit(a, b[..n], f);
      assert a + b == (a + b[..n]) + [b[n]];
      SumAppend(a + b[..n], b[n], f);
    }
  }

  lemma CancelOne(m: multiset<Event>, n: multiset<Event>, e: Event)
    requires m + multiset{e} == n + multiset{e}
    ensures m == n
  {
    assert m == (m + multiset{e}) - multiset{e};
  }

  /** The last element of one ordering, found and taken out of the other. */
  lemma TakeOut(a: seq<Event>, b: seq<Event>) returns (i: nat)
    requires a != [] && multiset(a) == multiset(b)
    ensures i < |b| && b[i] == a[|a| - 1]
    ensures multiset(a[..|a| - 1]) == multiset(b[..i] + b[i + 1..])
    ensures b == b[..i] + [b[i]] + b[i + 1..]
  {
    var rest, last := a[..|a| - 1], a[|a| - 1];
    assert a == rest + [last];
    assert last in multiset(b);
    i :| 0 <= i < |b| && b[i] == last;
    assert b == b[..i] + [b[i]] + b[i + 1..];
    CancelOne(multiset(rest), multiset(b[..i] + b[i + 1..]), last);
  }

  lemma {:induction false} CountPermutes(a: seq<Event>, b: seq<Event>, p: Event -> bool)
    requires multiset(a) == multiset(b)
    ensures Count(a, p) == Count(b, p)
    decreases |a|
  {
    if a == [] {
      assert |multiset(b)| == 0;
    } else {
      var i := TakeOut(a, b);
      CountPermutes(a[..|a| - 1], b[..i] + b[i + 1..], p);
      CountSplit(b[..i] + [b[i]], b[i + 1..], p);
      CountAppend(b[..i], b[i], p);
      CountSplit(b[..i], b[i + 1..], p);
    }
  }

  lemma {:induction false} SumPermutes(a: seq<Event>, b: seq<Event>, f: Event -> real)
    requires multiset(a) == multiset(b)
    ensures Sum(a, f) == Sum(b, f)
    decreases |a|
  {
    if a == [] {
      assert |multiset(b)| == 0;
    } else {
      var i := TakeOut(a, b);
      SumPermutes(a[..|a| - 1], b[..i] + b[i + 1..], f);
      SumSplit(b[..i] + [b[i]], b[i + 1..], f);
      SumAppend(b[..i], b[i], f);
      SumSplit(b[..i], b[i + 1..], f);
    }
  }

  lemma SameMembers(a: seq<Event>, b: seq<Event>)
    requires multiset(a) == multiset(b)
    ensures forall e :: e in a <==> e in b
  {
    forall e ensures e in a <==> e in b { assert e in multiset(a) <==> e in multiset(b); }
  }

  lemma TrafficPermutes(a: seq<Event>, b: seq<Event>)
    requires multiset(a) == multiset(b)
    ensures TrafficOf(a) == TrafficOf(b)
  {
    SameMembers(a, b);
    assert TrafficKeys(a) == TrafficKeys(b);
    forall k ensures TrafficRowOf(a, k) == TrafficRowOf(b, k) { TrafficRowPermutes(a, b, k); }
  }

  lemma TrafficRowPermutes(a: seq<Event>, b: seq<Event>, k: TrafficKey)
    requires multiset(a) == multiset(b) && forall e :: e in a <==> e in b
    ensures TrafficRowOf(a, k) == TrafficRowOf(b, k)
  {
    CountPermutes(a, b, ViewAt(k));
    assert SessionsAt(a, k) == SessionsAt(b, k);
    assert UsersAt(a, k) == UsersAt(b, k);
    assert PagesAt(a, k) == PagesAt(b, k);
    forall s ensures Count(a, ViewIn(s)) == Count(b, ViewIn(s)) { CountPermutes(a, b, ViewIn(s)); }
    assert BouncedAt(a, k) == BouncedAt(b, k);
  }

  lemma VisitorsPermute(a: seq<Event>, b: seq<Event>)
    requires multiset(a) == multiset(b)
    ensures VisitorsOf(a) == VisitorsOf(b)
  {
    SameMembers(a, b);
    assert VisitorKeys(a) == VisitorKeys(b);
    forall v ensures VisitorRowOf(a, v) == VisitorRowOf(b, v) {
      SumPermutes(a, b, DurationAt(v));
      assert VisitorSessions(a, v) == VisitorSessions(b, v);
      assert VisitorUsers(a, v) == VisitorUsers(b, v);
    }
  }

  lemma TotalsPermute(a: seq<Event>, b: seq<Event>)
    requires multiset(a) == multiset(b)
    ensures MetricOf(a, SESSIONS) == MetricOf(b, SESSIONS) && MetricOf(a, UNIQUE_VISITORS) == MetricOf(b, UNIQUE_VISITORS)
  {
    SameMembers(a, b);
    assert TrafficKeys(a) == TrafficKeys(b);
    forall k ensures SessionsAt(a, k) == SessionsAt(b, k) && UsersAt(a, k) == UsersAt(b, k) {}
    SumOverSame(TrafficKeys(a), SessionCount(a), SessionCount(b));
    SumOverSame(TrafficKeys(a), UserCount(a), UserCount(b));
  }

  lemma MetricsPermute(a: seq<Event>, b: seq<Event>)
    requires multiset(a) == multiset(b)
    ensures MetricsOf(a) == MetricsOf(b)
  {
    SameMembers(a, b);
    assert Touched(a) == Touched(b);
    TotalsPermute(a, b);
    forall k ensures MetricOf(a, k) == MetricOf(b, k) {
      SumPermutes(a, b, Gain(k));
    }
  }

  /** The read models depend on which events there are, not on the order they are read in. */
  lemma OrderIrrelevant(a: seq<Event>, b: seq<Event>)
    requires multiset(a) == multiset(b)
    ensures AggregateOf(a) == AggregateOf(b)
  {
    TrafficPermutes(a, b);
    VisitorsPermute(a, b);
    MetricsPermute(a, b);
  }

  // ---------------------------------------------------------------- page views are conserved

  function ViewCount(es: seq<Event>): TrafficKey -> nat {
    (k: TrafficKey) => Count(es, ViewAt(k))
  }

  lemma SumOverOneMore<K>(keys: set<K>, f: K -> nat, g: K -> nat, k: K)
    requires k in keys && g(k) == f(k) + 1 && forall l :: l in keys && l != k ==> g(l) == f(l)
    ensures SumOver(keys, g) == SumOver(keys, f) + 1
  {
    SumOverSplit(keys, f, k);
    SumOverSplit(keys, g, k);
    SumOverSame(keys - {k}, f, g);
  }

  lemma {:induction false} SumOverZero<K>(keys: set<K>, f: K -> nat)
    requires forall k :: k in keys ==> f(k) == 0
    ensures SumOver(keys, f) == 0
    decreases keys
  {
    if keys != {} {
      var k :| k in keys;
      SumOverSplit(keys, f, k);
      SumOverZero(keys - {k}, f);
    }
  }

  lemma {:induction false} ViewsOverKeys(es: seq<Event>, keys: set<TrafficKey>)
    requires forall e :: e in es && IsPageView(e) ==> KeyOf(e) in keys
    ensures SumOver(keys, ViewCount(es)) == Count(es, IsPageView)
    decreases |es|
  {
    if es == [] {
      SumOverZero(keys, ViewCount(es));
    } else {
      var rest, e := es[..|es| - 1], es[|es| - 1];
      assert es == rest + [e];
      ViewsOverKeys(rest, keys);
      forall k ensures Count(es, ViewAt(k)) == Count(rest, ViewAt(k)) + if ViewAt(k)(e) then 1 else 0 {
        CountAppend(rest, e, ViewAt(k));
      }
      CountAppend(rest, e, IsPageView);
      if IsPageView(e) {
        SumOverOneMore(keys, ViewCount(rest), ViewCount(es), KeyOf(e));
      } else {
        SumOverSame(keys, ViewCount(rest), ViewCount(es));
      }
    }
  }

  lemma {:induction false} ViewsAsMetric(es: seq<Event>)
    ensures Sum(es, Gain(PAGE_VIEWS)) == Count(es, IsPageView) as real
    decreases |es|
  {
    if es != [] { ViewsAsMetric(es[..|es| - 1]); }
  }

  /** The page views of all traffic rows add up to the page-view events. */
  lemma PageviewsConserved(es: seq<Event>)
    ensures SumOver(TrafficOf(es).Keys, PageviewsIn(TrafficOf(es))) == Count(es, IsPageView)
  {
    assert TrafficOf(es).Keys == TrafficKeys(es);
    ViewsOverKeys(es, TrafficKeys(es));
    SumOverSame(TrafficKeys(es), PageviewsIn(TrafficOf(es)), ViewCount(es));
  }

  /** The page-view metric is that number too, and is missing exactly when there are none. */
  lemma PageViewMetric(es: seq<Event>)
    ensures PAGE_VIEWS in MetricsOf(es) <==> Count(es, IsPageView) > 0
    ensures PAGE_VIEWS in MetricsOf(es) ==> MetricsOf(es)[PAGE_VIEWS] == Count(es, IsPageView) as real
  {
    ViewsAsMetric(es);
    if PAGE_VIEWS in Touched(es) {
      CountSome(es, IsPageView);
    } else {
      forall e | e in es ensures !IsPageView(e) {
        assert forall k :: k in Gains(e) ==> k in Touched(es);
      }
      CountNone(es, IsPageView);
    }
  }

  // ---------------------------------------------------------------- families of sets

  ghost function Union(keys: set<TrafficKey>, family: TrafficKey -> set<string>): set<string> {
    set k, s | k in keys && s in family(k) :: s
  }

  function Sizes(family: TrafficKey -> set<string>): TrafficKey -> nat {
    (k: TrafficKey) => |family(k)|
  }

  ghost predicate Apart(keys: set<TrafficKey>, family: TrafficKey -> set<string>) {
    forall k, l, s :: k in keys && l in keys && s in family(k) && s in family(l) ==> k == l
  }

  lemma UnionSize(a: set<string>, b: set<string>)
    ensures |a + b| <= |a| + |b| && (|a + b| == |a| + |b| <==> a !! b)
  {
    assert a + b == a + (b - a);
    assert b == (b * a) + (b - a);
    assert |b| == |b * a| + |b - a|;
    assert |a + b| == |a| + |b - a|;
    if |b * a| == 0 { assert b * a == {}; }
  }

  /** Counted member by member, a family is no smaller than its union, and as large exactly when nothing is shared. */
  lemma {:induction false} FamilySize(keys: set<TrafficKey>, family: TrafficKey -> set<string>)
    ensures SumOver(keys, Sizes(family)) >= |Union(keys, family)|
    ensures SumOver(keys, Sizes(family)) == |Union(keys, family)| <==> Apart(keys, family)
    decreases keys
  {
    if keys == {} {
      assert Union(keys, family) == {};
    } else {
      var k :| k in keys;
      SumOverSplit(keys, Sizes(family), k);
      FamilySize(keys - {k}, family);
      var others := Union(keys - {k}, family);
      assert Union(keys, family) == family(k) + others;
      UnionSize(family(k), others);
      ApartSplit(keys, family, k);
    }
  }

  lemma ApartSplit(keys: set<TrafficKey>, family: TrafficKey -> set<string>, k: TrafficKey)
    requires k in keys
    ensures Apart(keys, family) <==> Apart(keys - {k}, family) && family(k) !! Union(keys - {k}, family)
  {
    if Apart(keys, family) {
      forall s | s in family(k) ensures s !in Union(keys - {k}, family) {
      }
    }
    if Apart(keys - {k}, family) && family(k) !! Union(keys - {k}, family) {
      forall l, m, s | l in keys && m in keys && s in family(l) && s in family(m) ensures l == m {
        assert l != k ==> s in Union(keys - {k}, family);
        assert m != k ==> s in Union(keys - {k}, family);
      }
    }
  }

  // ---------------------------------------------------------------- sessions and bounces

  function AllSessions(es: seq<Event>): set<string> {
    set e | e in es && InSession(e) :: e.session
  }

  function SessionsFamily(es: seq<Event>): TrafficKey -> set<string> {
    (k: TrafficKey) => SessionsAt(es, k)
  }

  /** A session seen under two sources or accounts. */
  ghost predicate SpansTwo(es: seq<Event>, s: string) {
    exists d, e :: d in es && e in es && InSession(d) && InSession(e) && d.session == s && e.session == s && KeyOf(d) != KeyOf(e)
  }

  /** The sessions metric counts a session once a traffic row; it is the number of sessions exactly when none spans two. */
  lemma SessionsMetric(es: seq<Event>)
    ensures MetricsOf(es)[SESSIONS] >= |AllSessions(es)| as real
    ensures MetricsOf(es)[SESSIONS] == |AllSessions(es)| as real <==> forall s :: !SpansTwo(es, s)
  {
    var keys, family := TrafficKeys(es), SessionsFamily(es);
    FamilySize(keys, family);
    SumOverSame(keys, SessionCount(es), Sizes(family));
    SessionsUnion(es);
    SessionsApart(es);
  }

  lemma SessionsUnion(es: seq<Event>)
    ensures Union(TrafficKeys(es), SessionsFamily(es)) == AllSessions(es)
  {
    forall s | s in AllSessions(es) ensures s in Union(TrafficKeys(es), SessionsFamily(es)) {
      var e :| e in es && InSession(e) && e.session == s;
      assert KeyOf(e) in TrafficKeys(es) && s in SessionsFamily(es)(KeyOf(e));
    }
  }

  lemma SessionsApart(es: seq<Event>)
    ensures Apart(TrafficKeys(es), SessionsFamily(es)) <==> forall s :: !SpansTwo(es, s)
  {
    var keys, family := TrafficKeys(es), SessionsFamily(es);
    if Apart(keys, family) {
      forall d, e | d in es && e in es && InSession(d) && InSession(e) && d.session == e.session
        ensures KeyOf(d) == KeyOf(e)
      {
        assert KeyOf(d) in keys && d.session in family(KeyOf(d));
        assert KeyOf(e) in keys && e.session in family(KeyOf(e));
      }
    }
    if forall s :: !SpansTwo(es, s) {
      forall k, l, s | k in keys && l in keys && s in family(k) && s in family(l) ensures k == l {
        assert !SpansTwo(es, s);
      }
    }
  }

  function AllUsers(es: seq<Event>): set<string> {
    set e | e in es && ByUser(e) :: e.user
  }

  function UsersFamily(es: seq<Event>): TrafficKey -> set<string> {
    (k: TrafficKey) => UsersAt(es, k)
  }

  /** No user is seen under two sources or accounts. */
  ghost predicate UsersStay(es: seq<Event>) {
    forall d, e :: d in es && e in es && ByUser(d) && ByUser(e) && d.user == e.user ==> KeyOf(d) == KeyOf(e)
  }

  lemma UsersUnion(es: seq<Event>)
    ensures Union(TrafficKeys(es), UsersFamily(es)) == AllUsers(es)
  {
    forall s | s in AllUsers(es) ensures s in Union(TrafficKeys(es), UsersFamily(es)) {
      var e :| e in es && ByUser(e) && e.user == s;
      assert KeyOf(e) in TrafficKeys(es) && s in UsersFamily(es)(KeyOf(e));
    }
  }

  lemma UsersApart(es: seq<Event>)
    ensures Apart(TrafficKeys(es), UsersFamily(es)) <==> UsersStay(es)
  {
    var keys, family := TrafficKeys(es), UsersFamily(es);
    if Apart(keys, family) {
      forall d, e | d in es && e in es && ByUser(d) && ByUser(e) && d.user == e.user ensures KeyOf(d) == KeyOf(e) {
        assert KeyOf(d) in keys && d.user in family(KeyOf(d));
        assert KeyOf(e) in keys && e.user in family(KeyOf(e));
      }
    }
  }

  /** The visitors metric counts a user once a traffic row; it is the number of users exactly when none spans two. */
  lemma VisitorsMetric(es: seq<Event>)
    ensures MetricsOf(es)[UNIQUE_VISITORS] >= |AllUsers(es)| as real
    ensures MetricsOf(es)[UNIQUE_VISITORS] == |AllUsers(es)| as real <==> UsersStay(es)
  {
    var keys, family := TrafficKeys(es), UsersFamily(es);
    FamilySize(keys, family);
    SumOverSame(keys, UserCount(es), Sizes(family));
    UsersUnion(es);
    UsersApart(es);
  }

  /** Sessions that viewed exactly one page. */
  function OnePageSessions(es: seq<Event>): set<string> {
    set s | s in AllSessions(es) && Count(es, ViewIn(s)) == 1
  }

  function BouncedFamily(es: seq<Event>): TrafficKey -> set<string> {
    (k: TrafficKey) => BouncedAt(es, k)
  }

  /** An event satisfying p at two different places makes the count at least two. */
  lemma {:induction false} CountTwo(es: seq<Event>, p: Event -> bool, d: Event, e: Event)
    requires d in es && e in es && d != e && p(d) && p(e)
    ensures Count(es, p) >= 2
    decreases |es|
  {
    var rest, last := es[..|es| - 1], es[|es| - 1];
    assert es == rest + [last];
    if last == d || last == e {
      CountSome(rest, p);
    } else {
      CountTwo(rest, p, d, e);
    }
  }

  lemma {:induction false} CountFound(es: seq<Event>, p: Event -> bool) returns (e: Event)
    requires Count(es, p) > 0
    ensures e in es && p(e)
    decreases |es|
  {
    if p(es[|es| - 1]) { e := es[|es| - 1]; } else { e := CountFound(es[..|es| - 1], p); }
  }

  lemma BouncedUnion(es: seq<Event>)
    ensures Union(TrafficKeys(es), BouncedFamily(es)) == OnePageSessions(es)
  {
    forall s | s in OnePageSessions(es) ensures s in Union(TrafficKeys(es), BouncedFamily(es)) {
      var e := CountFound(es, ViewIn(s));
      assert KeyOf(e) in TrafficKeys(es) && s in BouncedFamily(es)(KeyOf(e));
    }
  }

  lemma BouncedApart(es: seq<Event>)
    ensures Apart(TrafficKeys(es), BouncedFamily(es))
  {
    forall k, l, s | s in BouncedAt(es, k) && s in BouncedAt(es, l) ensures k == l {
      var d :| d in es && ViewInSession(d) && KeyOf(d) == k && d.session == s;
      var e :| e in es && ViewInSession(e) && KeyOf(e) == l && e.session == s;
      if d != e { CountTwo(es, ViewIn(s), d, e); }
    }
  }

  /** Every session with exactly one page view bounces in exactly one traffic row. */
  lemma BouncesConserved(es: seq<Event>)
    ensures SumOver(TrafficKeys(es), Sizes(BouncedFamily(es))) == |OnePageSessions(es)|
  {
    FamilySize(TrafficKeys(es), BouncedFamily(es));
    BouncedUnion(es);
    BouncedApart(es);
  }

  lemma ShareInRange(part: real, whole: real)
    requires 0.0 <= part <= whole && whole > 0.0
    ensures 0.0 <= part / whole <= 1.0
  {
    var share := part / whole;
    assert share * whole == part;
    assert share < 0.0 ==> share * whole < 0.0;
    assert share > 1.0 ==> share * whole > whole;
  }

  lemma RoundedInRange(share: real)
    requires 0.0 <= share <= 1.0
    ensures 0.0 <= Nearest(share * 10000.0) as real / 10000.0 <= 1.0
  {
  }

  lemma RateInRange(bounced: nat, sessions: nat)
    requires bounced <= sessions
    ensures 0.0 <= BounceRate(bounced, sessions) <= 1.0
  {
    if sessions > 0 {
      ShareInRange(bounced as real, sessions as real);
      RoundedInRange(bounced as real / sessions as real);
    }
  }

  /** Bounces are sessions of their row, so every bounce rate is a proportion. */
  lemma BounceRateIsProportion(es: seq<Event>, k: TrafficKey)
    requires k in TrafficOf(es)
    ensures |BouncedAt(es, k)| <= |SessionsAt(es, k)|
    ensures 0.0 <= TrafficOf(es)[k].bounceRate <= 1.0
  {
    assert BouncedAt(es, k) <= SessionsAt(es, k);
    SubsetSize(BouncedAt(es, k), SessionsAt(es, k));
    RateInRange(|BouncedAt(es, k)|, |SessionsAt(es, k)|);
  }
}
