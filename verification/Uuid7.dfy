/** Time-ordered identifiers: bit layout and monotonicity, sections 5.7 and 6.2 of RFC 9562. */
module Uuid7 {
  import opened Prelude

  // ---------------------------------------------------------------- bits of natural numbers

  function Pow2(k: nat): (p: nat)
    ensures p > 0
  {
    if k == 0 then 1 else 2 * Pow2(k - 1)
  }

  function Shift(a: nat, k: nat): nat {
    if k == 0 then a else 2 * Shift(a, k - 1)
  }

  function Or(a: nat, b: nat): nat {
    if a == 0 && b == 0 then 0
    else 2 * Or(a / 2, b / 2) + if a % 2 == 1 || b % 2 == 1 then 1 else 0
  }

  function And(a: nat, b: nat): nat {
    if a == 0 || b == 0 then 0
    else 2 * And(a / 2, b / 2) + if a % 2 == 1 && b % 2 == 1 then 1 else 0
  }

  lemma {:induction false} Pow2Adds(j: nat, k: nat)
    ensures Pow2(j + k) == Pow2(j) * Pow2(k)
    decreases j
  {
    if j > 0 {
      Pow2Adds(j - 1, k);
      assert Pow2(j + k) == 2 * Pow2(j - 1 + k);
      assert Pow2(j) * Pow2(k) == 2 * (Pow2(j - 1) * Pow2(k));
    }
  }

  const POW12: nat := 0x1000
  const POW14: nat := 0x4000
  const POW48: nat := 0x1_0000_0000_0000
  const POW62: nat := 0x4000_0000_0000_0000
  const POW64: nat := 0x1_0000_0000_0000_0000
  const POW76: nat := 0x1000_0000_0000_0000_0000
  const POW80: nat := 0x1_0000_0000_0000_0000_0000
  const POW128: nat := 0x1_0000_0000_0000_0000_0000_0000_0000_0000

  lemma Powers()
    ensures Pow2(2) == 4 && Pow2(12) == POW12 && Pow2(14) == POW14 && Pow2(62) == POW62
    ensures Pow2(64) == POW64 && Pow2(76) == POW76 && Pow2(80) == POW80
  {
    assert Pow2(2) == 4 && Pow2(4) == 16 && Pow2(8) == 256;
    Pow2Adds(4, 8);
    Pow2Adds(2, 12);
    Pow2Adds(8, 8);
    Pow2Adds(16, 16);
    Pow2Adds(32, 32);
    Pow2Adds(14, 16);
    Pow2Adds(30, 32);
    Pow2Adds(12, 64);
    Pow2Adds(16, 64);
  }

  lemma AndStep(a: nat, p: nat)
    requires a > 0 && p > 0
    ensures And(a, 2 * p - 1) == 2 * And(a / 2, p - 1) + a % 2
  {
    assert (2 * p - 1) / 2 == p - 1 && (2 * p - 1) % 2 == 1;
  }

  /** The lowest k bits, and what is above them. */
  function Low(a: nat, k: nat): nat {
    if k == 0 then 0 else 2 * Low(a / 2, k - 1) + a % 2
  }

  function High(a: nat, k: nat): nat {
    if k == 0 then a else High(a / 2, k - 1)
  }

  lemma {:induction false} MaskIsLow(a: nat, k: nat)
    ensures And(a, Pow2(k) - 1) == Low(a, k)
    decreases k
  {
    if k > 0 {
      MaskIsLow(a / 2, k - 1);
      if a > 0 { AndStep(a, Pow2(k - 1)); }
    }
  }

  lemma {:induction false} HighAndLow(a: nat, k: nat)
    ensures a == Shift(High(a, k), k) + Low(a, k) && Low(a, k) < Pow2(k)
    decreases k
  {
    if k > 0 { HighAndLow(a / 2, k - 1); }
  }

  lemma ModIs(a: nat, q: nat, m: nat, r: nat)
    requires m > 0 && a == q * m + r && r < m
    ensures a % m == r && a / m == q
  {
    var d := a / m - q;
    assert d * m == r - a % m;
    assert d >= 1 ==> d * m >= m;
    assert d <= -1 ==> d * m <= 0 - m;
  }

  /** Masking with all ones is the remainder. */
  lemma AndMask(a: nat, k: nat)
    ensures And(a, Pow2(k) - 1) == a % Pow2(k)
  {
    MaskIsLow(a, k);
    HighAndLow(a, k);
    ShiftMultiplies(High(a, k), k);
    ModIs(a, High(a, k), Pow2(k), Low(a, k));
  }

  /** One bit more at the bottom. */
  lemma OrLifts(a: nat, a': nat, l: nat, l': nat, top: nat, p: nat)
    requires a % 2 == l % 2 && a' % 2 == l' % 2
    requires Or(a / 2, a' / 2) == top + Or(l / 2, l' / 2) && Or(l / 2, l' / 2) < p
    ensures Or(a, a') == 2 * top + Or(l, l') && Or(l, l') < 2 * p
  {
    OrStep(a, a');
    OrStep(l, l');
  }

  lemma {:induction false} ShiftMultiplies(a: nat, k: nat)
    ensures Shift(a, k) == a * Pow2(k)
    decreases k
  {
    if k > 0 {
      ShiftMultiplies(a, k - 1);
      assert a * (2 * Pow2(k - 1)) == 2 * (a * Pow2(k - 1));
    }
  }

  lemma HalvesOf(h: nat, l: nat)
    ensures (2 * h + l) / 2 == h + l / 2 && (2 * h + l) % 2 == l % 2
  {
  }

  /** Bits below and above a boundary do not meet. */
  lemma {:induction false} OrSplits(k: nat, h: nat, l: nat, h': nat, l': nat)
    requires l < Pow2(k) && l' < Pow2(k)
    ensures Or(Shift(h, k) + l, Shift(h', k) + l') == Shift(Or(h, h'), k) + Or(l, l') && Or(l, l') < Pow2(k)
    decreases k
  {
    if k > 0 {
      var x, x', top := Shift(h, k - 1), Shift(h', k - 1), Shift(Or(h, h'), k - 1);
      OrSplits(k - 1, h, l / 2, h', l' / 2);
      HalvesOf(x, l);
      HalvesOf(x', l');
      OrLifts(2 * x + l, 2 * x' + l', l, l', top, Pow2(k - 1));
    }
  }

  lemma OrStep(a: nat, b: nat)
    ensures Or(a, b) == 2 * Or(a / 2, b / 2) + if a % 2 == 1 || b % 2 == 1 then 1 else 0
  {
  }

  lemma {:induction false} OrZero(a: nat)
    ensures Or(a, 0) == a && Or(0, a) == a
  {
    if a > 0 { OrZero(a / 2); }
  }

  // ---------------------------------------------------------------- the layout

  const VERSION: nat := 7
  const VARIANT: nat := 2

  /** Timestamp, four version bits, twelve counter bits, two variant bits, sixty-two random bits. */
  function Fields(now: nat, version: nat, counter: nat, variant: nat, random: nat): nat {
    now * POW80 + version * POW76 + counter * POW64 + variant * POW62 + random
  }

  function Layout(now: nat, counter: nat, random: nat): nat {
    Fields(now, VERSION, counter, VARIANT, random)
  }

  /** The value as it is put together from shifted and masked parts. */
  function Assemble(now: nat, clockSeq: nat, random: nat, version: nat, variant: nat): nat {
    var value := Or(Or(Shift(now, 80), Shift(And(clockSeq, 0xFFF), 64)), And(random, POW62 - 1));
    Or(Or(value, Shift(version, 76)), Shift(variant, 62))
  }

  lemma ShiftAt(a: nat, k: nat, p: nat)
    requires p == Pow2(k)
    ensures Shift(a, k) == a * p
  {
    ShiftMultiplies(a, k);
  }

  lemma TimeAndCounter(now: nat, c: nat)
    requires c < POW12
    ensures Or(Shift(now, 80), Shift(c, 64)) == now * POW80 + c * POW64
  {
    Powers();
    ShiftAt(now, 80, POW80);
    ShiftAt(c, 64, POW64);
    LowBits(80, now, Shift(c, 64));
  }

  lemma RandomBits(high: nat, r: nat)
    requires r < POW62
    ensures Or(high * POW62, r) == high * POW62 + r
  {
    Powers();
    ShiftAt(high, 62, POW62);
    LowBits(62, high, r);
  }

  lemma LowBits(k: nat, high: nat, low: nat)
    requires low < Pow2(k)
    ensures Or(Shift(high, k), low) == Shift(high, k) + low
  {
    OrSplits(k, high, 0, 0, low);
    ShiftMultiplies(0, k);
    OrZero(high);
    OrZero(low);
  }

  /** A small field set into zero bits above some low bits. */
  lemma SetField(high: nat, width: nat, field: nat, k: nat, low: nat)
    requires field < Pow2(width) && low < Pow2(k)
    ensures Or(Shift(Shift(high, width), k) + low, Shift(field, k)) == Shift(Shift(high, width) + field, k) + low
  {
    OrSplits(k, Shift(high, width), low, field, 0);
    LowBits(width, high, field);
    OrZero(low);
  }

  lemma VersionBits(now: nat, low: nat, version: nat)
    requires low < POW76 && version < 16
    ensures Or(now * POW80 + low, Shift(version, 76)) == now * POW80 + version * POW76 + low
  {
    Powers();
    assert Pow2(4) == 16;
    SetField(now, 4, version, 76, low);
    ShiftAt(now, 4, 16);
    ShiftAt(now * 16, 76, POW76);
    ShiftAt(now * 16 + version, 76, POW76);
  }

  lemma VariantBits(high: nat, r: nat, variant: nat)
    requires r < POW62 && variant < 4
    ensures Or(high * POW64 + r, Shift(variant, 62)) == high * POW64 + variant * POW62 + r
  {
    Powers();
    SetField(high, 2, variant, 62, r);
    ShiftAt(high, 2, 4);
    ShiftAt(high * 4, 62, POW62);
    ShiftAt(high * 4 + variant, 62, POW62);
  }

  lemma Masks(clockSeq: nat, random: nat)
    ensures And(clockSeq, 0xFFF) == clockSeq % POW12 && And(random, POW62 - 1) == random % POW62
  {
    Powers();
    AndMask(clockSeq, 12);
    AndMask(random, 62);
  }

  lemma LowFields(now: nat, c: nat, r: nat)
    requires c < POW12 && r < POW62
    ensures Or(Or(Shift(now, 80), Shift(c, 64)), r) == now * POW80 + (c * POW64 + r)
  {
    TimeAndCounter(now, c);
    RandomBits(now * 0x4_0000 + c * 4, r);
  }

  lemma VariantField(now: nat, version: nat, c: nat, r: nat, variant: nat)
    requires r < POW62 && variant < 4
    ensures Or(now * POW80 + version * POW76 + (c * POW64 + r), Shift(variant, 62)) == Fields(now, version, c, variant, r)
  {
    VariantBits(now * 0x1_0000 + version * 0x1000 + c, r, variant);
  }

  lemma FieldsLandInPlace(now: nat, c: nat, r: nat, version: nat, variant: nat)
    requires c < POW12 && r < POW62 && version < 16 && variant < 4
    ensures Or(Or(Or(Or(Shift(now, 80), Shift(c, 64)), r), Shift(version, 76)), Shift(variant, 62))
            == Fields(now, version, c, variant, r)
  {
    var low := c * POW64 + r;
    var three := Or(Or(Shift(now, 80), Shift(c, 64)), r);
    assert three == now * POW80 + low by { LowFields(now, c, r); }
    var four := Or(three, Shift(version, 76));
    assert four == now * POW80 + version * POW76 + low by { VersionBits(now, low, version); }
    assert Or(four, Shift(variant, 62)) == Fields(now, version, c, variant, r) by {
      VariantField(now, version, c, r, variant);
    }
  }

  /** Shifting, masking and or-ing put every field where the layout wants it. */
  lemma AssembleIsLayout(now: nat, clockSeq: nat, random: nat, version: nat, variant: nat)
    requires version < 16 && variant < 4
    ensures Assemble(now, clockSeq, random, version, variant)
            == Fields(now, version, clockSeq % POW12, variant, random % POW62)
  {
    Masks(clockSeq, random);
    FieldsLandInPlace(now, clockSeq % POW12, random % POW62, version, variant);
  }

  lemma TimeReadsBack(now: nat, low: nat)
    requires low < POW76
    ensures
      var v := now * POW80 + VERSION * POW76 + low;
      v / POW80 == now && v / POW76 % 16 == VERSION && (v < POW128 <==> now < POW48)
  {
    var v := now * POW80 + VERSION * POW76 + low;
    ModIs(v, now, POW80, VERSION * POW76 + low);
    ModIs(v, now * 16 + VERSION, POW76, low);
  }

  lemma RestReadsBack(high: nat, counter: nat, random: nat)
    requires counter < POW12 && random < POW62
    ensures
      var v := high * POW76 + counter * POW64 + VARIANT * POW62 + random;
      v / POW64 % POW12 == counter && v / POW62 % 4 == VARIANT && v % POW62 == random
  {
    var v := high * POW76 + counter * POW64 + VARIANT * POW62 + random;
    ModIs(v, high * POW12 + counter, POW64, VARIANT * POW62 + random);
    ModIs(v, (high * POW12 + counter) * 4 + VARIANT, POW62, random);
  }

  /** The fields read back; the value has 128 bits exactly when the timestamp has 48. */
  lemma LayoutReadsBack(now: nat, counter: nat, random: nat)
    requires counter < POW12 && random < POW62
    ensures
      var v := Layout(now, counter, random);
      && v / POW80 == now
      && v / POW76 % 16 == VERSION
      && v / POW64 % POW12 == counter
      && v / POW62 % 4 == VARIANT
      && v % POW62 == random
      && (v < POW128 <==> now < POW48)
  {
    var v := Layout(now, counter, random);
    assert v == now * POW80 + VERSION * POW76 + (counter * POW64 + VARIANT * POW62 + random);
    TimeReadsBack(now, counter * POW64 + VARIANT * POW62 + random);
    assert v == (now * 16 + VERSION) * POW76 + counter * POW64 + VARIANT * POW62 + random;
    RestReadsBack(now * 16 + VERSION, counter, random);
  }

  // ---------------------------------------------------------------- the generator

  /** The clock sequence for a call at a given millisecond. */
  function NextSeq(clockSeq: nat, lastMs: int, now: nat): nat {
    if now == lastMs then And(clockSeq + 1, 0x3FFF) else 0
  }

  class Generator {
    var clockSeq: nat
    var lastMs: int

    constructor ()
      ensures clockSeq == 0 && lastMs == -1 && Called([])
    {
      clockSeq, lastMs := 0, -1;
    }

    /** The generator has been called at these milliseconds and no others. */
    predicate Called(times: seq<nat>)
      reads this
    {
      clockSeq == SeqAfter(times) && lastMs == LastMs(times)
    }

    /** Nothing comes back from a clock past 48 bits: the value does not fit and is refused. */
    method Next(now: nat, random: nat) returns (id: Option<nat>)
      modifies this
      ensures clockSeq == NextSeq(old(clockSeq), old(lastMs), now) && lastMs == now
      ensures id.Some? <==> now < POW48
      ensures id.Some? ==> id.value == Layout(now, clockSeq % POW12, random % POW62)
      ensures forall times, randoms: seq<nat> :: |times| == |randoms| && old(Called(times)) ==>
                && Called(times + [now])
                && (id.Some? ==> id.value == IdAt(times + [now], randoms + [random], |times|))
    {
      if now == lastMs {
        clockSeq := And(clockSeq + 1, 0x3FFF);
      } else {
        clockSeq := 0;
        lastMs := now;
      }
      var value := Assemble(now, clockSeq, random, VERSION, VARIANT);
      AssembleIsLayout(now, clockSeq, random, VERSION, VARIANT);
      LayoutReadsBack(now, clockSeq % POW12, random % POW62);
      forall times, randoms: seq<nat> | |times| == |randoms| && old(Called(times))
        ensures Called(times + [now])
        ensures Layout(now, clockSeq % POW12, random % POW62) == IdAt(times + [now], randoms + [random], |times|)
      {
        assert (times + [now])[..|times|] == times && (times + [now])[..|times| + 1] == times + [now];
      }
      if value >= POW128 { return None; }
      return Some(value);
    }
  }

  // ---------------------------------------------------------------- runs of calls

  /** The clock sequence after calls at the given milliseconds, from the start of the process. */
  function SeqAfter(times: seq<nat>): nat {
    if times == [] then 0
    else NextSeq(SeqAfter(times[..|times| - 1]), LastMs(times[..|times| - 1]), times[|times| - 1])
  }

  function LastMs(times: seq<nat>): int {
    if times == [] then -1 else times[|times| - 1]
  }

  /** The value of call i. */
  function IdAt(times: seq<nat>, randoms: seq<nat>, i: nat): nat
    requires i < |times| == |randoms|
  {
    Layout(times[i], SeqAfter(times[..i + 1]) % POW12, randoms[i] % POW62)
  }

  /** How many calls came before call i in its own millisecond. */
  function Rank(times: seq<nat>, i: nat): nat
    requires i < |times|
  {
    if i > 0 && times[i - 1] == times[i] then Rank(times, i - 1) + 1 else 0
  }

  lemma NextRemainder(r: nat, m: nat)
    requires m > 0
    ensures (r % m + 1) % m == (r + 1) % m
  {
    var q, x := r / m, r % m;
    assert r == q * m + x;
    if x + 1 < m {
      ModIs(r + 1, q, m, x + 1);
    } else {
      assert r + 1 == (q + 1) * m + 0;
      ModIs(r + 1, q + 1, m, 0);
    }
  }

  lemma SeqSteps(r: nat)
    ensures And(r % POW14 + 1, 0x3FFF) == (r + 1) % POW14
  {
    Powers();
    AndMask(r % POW14 + 1, 14);
    NextRemainder(r, POW14);
  }

  lemma {:induction false} SeqIsRank(times: seq<nat>, i: nat)
    requires i < |times|
    ensures SeqAfter(times[..i + 1]) == Rank(times, i) % POW14
    decreases i
  {
    var upTo := times[..i + 1];
    assert upTo[..i] == times[..i] && upTo[i] == times[i];
    assert SeqAfter(upTo) == NextSeq(SeqAfter(times[..i]), LastMs(times[..i]), times[i]);
    if i > 0 {
      SeqIsRank(times, i - 1);
      assert LastMs(times[..i]) == times[i - 1];
      SeqSteps(Rank(times, i - 1));
    }
  }

  predicate Nondecreasing(times: seq<nat>) {
    forall i, j :: 0 <= i <= j < |times| ==> times[i] <= times[j]
  }

  ghost predicate StrictlyIncreasing(times: seq<nat>, randoms: seq<nat>)
    requires |times| == |randoms|
  {
    forall i, j :: 0 <= i < j < |times| ==> IdAt(times, randoms, i) < IdAt(times, randoms, j)
  }

  /** Within a millisecond, later calls have higher ranks. */
  lemma {:induction false} RankGrows(times: seq<nat>, i: nat, j: nat)
    requires i < j < |times| && Nondecreasing(times) && times[i] == times[j]
    ensures Rank(times, i) + (j - i) == Rank(times, j)
    decreases j
  {
    if i < j - 1 { RankGrows(times, i, j - 1); }
  }

  lemma LayoutOrder(t: nat, c: nat, r: nat, t': nat, c': nat, r': nat)
    requires c < POW12 && c' < POW12 && r < POW62 && r' < POW62
    requires t < t' || (t == t' && c < c')
    ensures Layout(t, c, r) < Layout(t', c', r')
  {
  }

  /** The millisecond's first call that reuses counter zero comes out below its predecessor. */
  lemma WrapDecreases(times: seq<nat>, randoms: seq<nat>, i: nat)
    requires |times| == |randoms| && i < |times| && Rank(times, i) == POW12
    ensures i > 0 && IdAt(times, randoms, i) < IdAt(times, randoms, i - 1)
  {
    SeqIsRank(times, i);
    SeqIsRank(times, i - 1);
    LayoutOrder(times[i], 0, randoms[i] % POW62, times[i], POW12 - 1, randoms[i - 1] % POW62);
  }

  lemma {:induction false} EarlierRank(times: seq<nat>, i: nat, r: nat) returns (k: nat)
    requires i < |times| && r <= Rank(times, i)
    ensures k <= i && Rank(times, k) == r
    decreases i
  {
    if Rank(times, i) == r { k := i; } else { k := EarlierRank(times, i - 1, r); }
  }

  lemma IdOfRank(times: seq<nat>, randoms: seq<nat>, i: nat)
    requires |times| == |randoms| && i < |times| && Rank(times, i) < POW12
    ensures IdAt(times, randoms, i) == Layout(times[i], Rank(times, i), randoms[i] % POW62)
  {
    assert SeqAfter(times[..i + 1]) % POW12 == Rank(times, i) by {
      SeqIsRank(times, i);
      SmallRemainder(Rank(times, i));
    }
  }

  lemma SmallRemainder(r: nat)
    requires r < POW12
    ensures r % POW14 % POW12 == r
  {
  }

  /** No millisecond has more than 4096 calls. */
  ghost predicate WithinCounter(times: seq<nat>) {
    forall i :: 0 <= i < |times| ==> Rank(times, i) < POW12
  }

  lemma WithinCounterIncreases(times: seq<nat>, randoms: seq<nat>, i: nat, j: nat)
    requires |times| == |randoms| && Nondecreasing(times) && i < j < |times|
    requires Rank(times, i) < POW12 && Rank(times, j) < POW12
    ensures IdAt(times, randoms, i) < IdAt(times, randoms, j)
  {
    IdOfRank(times, randoms, i);
    IdOfRank(times, randoms, j);
    if times[i] == times[j] { RankGrows(times, i, j); }
    LayoutOrder(times[i], Rank(times, i), randoms[i] % POW62, times[j], Rank(times, j), randoms[j] % POW62);
  }

  lemma IncreasingStaysWithin(times: seq<nat>, randoms: seq<nat>, i: nat)
    requires |times| == |randoms| && i < |times| && StrictlyIncreasing(times, randoms)
    ensures Rank(times, i) < POW12
  {
    if Rank(times, i) >= POW12 {
      var k := EarlierRank(times, i, POW12);
      WrapDecreases(times, randoms, k);
    }
  }

  /**
   Under a clock that never runs back, the values are strictly increasing exactly when no millisecond has more
   than 4096 calls, whatever the random bits.
   */
  lemma MonotonicIffWithinCounter(times: seq<nat>, randoms: seq<nat>)
    requires |times| == |randoms| && Nondecreasing(times)
    ensures StrictlyIncreasing(times, randoms) <==> WithinCounter(times)
  {
    if WithinCounter(times) {
      forall i, j | 0 <= i < j < |times| ensures IdAt(times, randoms, i) < IdAt(times, randoms, j) {
        WithinCounterIncreases(times, randoms, i, j);
      }
    }
    if StrictlyIncreasing(times, randoms) {
      forall i | 0 <= i < |times| ensures Rank(times, i) < POW12 {
        IncreasingStaysWithin(times, randoms, i);
      }
    }
  }

  /** The ranks say it in times: call i + 4096 is never in the millisecond of call i. */
  lemma WithinCounterInTimes(times: seq<nat>)
    requires Nondecreasing(times)
    ensures WithinCounter(times) <==> forall i, j :: 0 <= i && j == i + POW12 && j < |times| ==> times[i] < times[j]
  {
    forall i, j | 0 <= i && j == i + POW12 && j < |times| ensures WithinCounter(times) ==> times[i] < times[j] {
      if times[i] == times[j] { RankGrows(times, i, j); }
    }
    if !WithinCounter(times) {
      var j :| 0 <= j < |times| && Rank(times, j) >= POW12;
      var k := EarlierRank(times, j, POW12);
      RankReachesBack(times, k, POW12);
    }
  }

  lemma {:induction false} RankReachesBack(times: seq<nat>, i: nat, n: nat)
    requires i < |times| && n <= Rank(times, i)
    ensures n <= i && times[i - n] == times[i]
    decreases n
  {
    if n > 0 { RankReachesBack(times, i - 1, n - 1); }
  }
}
