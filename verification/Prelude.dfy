/** Small facts shared by the models: optional values and the cardinality of finite sets. */
module Prelude {
  datatype Option<+T> = None | Some(value: T)

  function Max(a: int, b: int): (m: int)
    ensures m >= a && m >= b && (m == a || m == b)
  {
    if a >= b then a else b
  }

  function Min(a: int, b: int): (m: int)
    ensures m <= a && m <= b && (m == a || m == b)
  {
    if a <= b then a else b
  }

  function OneIf(b: bool): nat {
    if b then 1 else 0
  }

  /** A subset is no larger than the set around it. */
  lemma {:induction false} SubsetSize<T>(small: set<T>, big: set<T>)
    requires small <= big
    ensures |small| <= |big|
    ensures |small| == |big| ==> small == big
    decreases small
  {
    if small == {} {
      if |big| == 0 { assert big == {}; }
    } else {
      var x :| x in small;
      SubsetSize(small - {x}, big - {x});
      if |small| == |big| {
        assert small == (small - {x}) + {x} == (big - {x}) + {x} == big;
      }
    }
  }

  ghost predicate Distinct<T>(s: seq<T>) {
    forall a, b :: 0 <= a < b < |s| ==> s[a] != s[b]
  }

  ghost function Elements<T>(s: seq<T>): set<T> {
    set x | x in s
  }

  lemma {:induction false} DistinctSize<T>(s: seq<T>)
    requires Distinct(s)
    ensures |Elements(s)| == |s|
  {
    if s == [] {
      assert Elements(s) == {};
    } else {
      var n := |s| - 1;
      DistinctSize(s[..n]);
      assert Elements(s) == Elements(s[..n]) + {s[n]} by {
        forall x ensures x in s <==> x in s[..n] || x == s[n] {}
      }
    }
  }

  /** Distinct integers drawn from lo..hi-1 number at most hi - lo. */
  lemma {:induction false} RangeSize(s: set<int>, lo: int, hi: int)
    requires lo <= hi
    requires forall x :: x in s ==> lo <= x < hi
    ensures |s| <= hi - lo
    decreases hi - lo
  {
    if lo == hi {
      if s != {} {
        var x :| x in s;
        assert false;
      }
    } else {
      RangeSize(s - {lo}, lo + 1, hi);
      assert s - {lo} == s || s == (s - {lo}) + {lo};
    }
  }
}
