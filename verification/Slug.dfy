/** Slugs: turning text into one, and finding a free one. */
module Slug {
  import opened Prelude

  // ---------------------------------------------------------------- slugify

  predicate Alnum(c: char) {
    'a' <= c <= 'z' || '0' <= c <= '9'
  }

  /** The characters that a slug keeps. */
  lemma AlnumIs(c: char)
    ensures Alnum(c) <==> c in "abcdefghijklmnopqrstuvwxyz0123456789"
  {
    if Alnum(c) { assert c in "abcdefghijklmnopqrstuvwxyz0123456789" by { KeptCharacter(c); } }
  }

  lemma KeptCharacter(c: char)
    requires 'a' <= c <= 'z' || '0' <= c <= '9'
    ensures c in "abcdefghijklmnopqrstuvwxyz0123456789"
  {
    var letters, digits := "abcdefghijklmnopqrstuvwxyz", "0123456789";
    var all := letters + digits;
    if 'a' <= c <= 'z' {
      assert letters[c as int - 'a' as int] == c;
      assert all[c as int - 'a' as int] == c;
    } else {
      assert digits[c as int - '0' as int] == c;
      assert all[26 + c as int - '0' as int] == c;
    }
  }

  /** Every run of other characters becomes one hyphen. */
  function Collapse(s: string): string {
    if s == "" then ""
    else
      var before, c := Collapse(s[..|s| - 1]), s[|s| - 1];
      if Alnum(c) then before + [c]
      else if before != "" && before[|before| - 1] == '-' then before
      else before + "-"
  }

  function TrimLeft(s: string): string {
    if s != "" && s[0] == '-' then TrimLeft(s[1..]) else s
  }

  function TrimRight(s: string): string {
    if s != "" && s[|s| - 1] == '-' then TrimRight(s[..|s| - 1]) else s
  }

  /** How letters are lowered is the platform's business. */
  function Slugify(text: string, lower: string -> string): string {
    var slug := TrimRight(TrimLeft(Collapse(lower(text))));
    if slug == "" then "untitled" else slug
  }

  // ---------------------------------------------------------------- what a slug is

  predicate AllAlnum(s: string) {
    forall i :: 0 <= i < |s| ==> Alnum(s[i])
  }

  /** One or more words of lower-case letters and digits, joined by single hyphens. */
  ghost predicate IsSlug(s: string) {
    exists words :: words != [] && WordsOk(words) && s == Join(words)
  }

  predicate WordsOk(words: seq<string>) {
    forall i :: 0 <= i < |words| ==> words[i] != "" && AllAlnum(words[i])
  }

  function Join(words: seq<string>): string {
    if words == [] then ""
    else if |words| == 1 then words[0]
    else Join(words[..|words| - 1]) + "-" + words[|words| - 1]
  }

  /** The maximal runs of letters and digits of a text, in order. */
  function Words(s: string): seq<string> {
    if s == "" then []
    else
      var before, c := Words(s[..|s| - 1]), s[|s| - 1];
      if !Alnum(c) then before
      else if before != [] && Alnum(s[|s| - 2]) then before[..|before| - 1] + [before[|before| - 1] + [c]]
      else before + [[c]]
  }

  lemma WordsAppend(t: string, c: char)
    ensures Words(t + [c]) ==
            if !Alnum(c) then Words(t)
            else if Words(t) != [] && t != "" && Alnum(t[|t| - 1])
            then Words(t)[..|Words(t)| - 1] + [Words(t)[|Words(t)| - 1] + [c]]
            else Words(t) + [[c]]
  {
    var s := t + [c];
    assert s[..|s| - 1] == t;
    if t != "" { assert s[|s| - 2] == t[|t| - 1]; }
  }

  lemma {:induction false} WordsAreOk(s: string)
    ensures WordsOk(Words(s))
    ensures s != "" && Alnum(s[|s| - 1]) ==> Words(s) != []
    decreases |s|
  {
    if s != "" {
      var t, c := s[..|s| - 1], s[|s| - 1];
      assert s == t + [c];
      WordsAreOk(t);
      WordsAppend(t, c);
      if Alnum(c) { WordsGrow(Words(t), c); }
    }
  }

  lemma WordsGrow(words: seq<string>, c: char)
    requires WordsOk(words) && Alnum(c)
    ensures WordsOk(words + [[c]])
    ensures words != [] ==> WordsOk(words[..|words| - 1] + [words[|words| - 1] + [c]])
  {
    if words != [] { assert AllAlnum(words[|words| - 1] + [c]); }
  }

  function Lead(s: string): string {
    if s != "" && !Alnum(s[0]) then "-" else ""
  }

  function Tail(s: string): string {
    if s != "" && !Alnum(s[|s| - 1]) && Words(s) != [] then "-" else ""
  }

  lemma {:induction false} JoinEnds(words: seq<string>)
    requires words != [] && WordsOk(words)
    ensures Join(words) != "" && Alnum(Join(words)[0]) && Alnum(Join(words)[|Join(words)| - 1])
    decreases |words|
  {
    if |words| > 1 { JoinEnds(words[..|words| - 1]); }
  }

  lemma JoinNewWord(words: seq<string>, w: string)
    ensures Join(words + [w]) == if words == [] then w else Join(words) + "-" + w
  {
    assert (words + [w])[..|words|] == words;
  }

  lemma JoinLongerWord(rest: seq<string>, w: string, c: char)
    ensures Join(rest + [w + [c]]) == Join(rest + [w]) + [c]
  {
    JoinNewWord(rest, w + [c]);
    JoinNewWord(rest, w);
    if rest != [] {
      var head := Join(rest) + "-";
      assert head + (w + [c]) == head + w + [c];
    }
  }

  /** Collapsing keeps the words, with a hyphen between them and one for a separator at either end. */
  lemma {:induction false} CollapseJoins(s: string)
    ensures Collapse(s) == Lead(s) + Join(Words(s)) + Tail(s)
    decreases |s|
  {
    if s != "" {
      var t, c := s[..|s| - 1], s[|s| - 1];
      CollapseJoins(t);
      WordsAreOk(t);
      if Words(t) != [] { JoinEnds(Words(t)); }
      if Alnum(c) { CollapseLetter(t, c); } else { CollapseSeparator(t, c); }
      assert s == t + [c];
    }
  }

  lemma CollapseLetter(t: string, c: char)
    requires Alnum(c) && Collapse(t) == Lead(t) + Join(Words(t)) + Tail(t)
    ensures Collapse(t + [c]) == Lead(t + [c]) + Join(Words(t + [c])) + Tail(t + [c])
  {
    assert (t + [c])[..|t|] == t;
    WordsAreOk(t);
    WordsAppend(t, c);
    assert Collapse(t + [c]) == Collapse(t) + [c];
    assert Tail(t + [c]) == "";
    if t != "" && Alnum(t[|t| - 1]) {
      InsideWord(t, c);
    } else {
      BetweenWords(t, c);
    }
  }

  lemma Regroup(a: string, b: string, c: string, d: string)
    ensures a + b + c + d == a + (b + (c + d)) == a + (b + c + d)
  {
    assert a + b + c + d == a + (b + (c + d));
    assert b + (c + d) == b + c + d;
  }

  lemma LeadStays(t: string, c: char)
    requires t != "" || Alnum(c)
    ensures Lead(t + [c]) == Lead(t)
  {
  }

  lemma InsideWord(t: string, c: char)
    requires t != "" && Alnum(t[|t| - 1]) && Words(t) != [] && Alnum(c)
    ensures Lead(t) + Join(Words(t)) + Tail(t) + [c] == Lead(t + [c]) + Join(Words(t + [c]))
  {
    var lead, words := Lead(t), Words(t);
    var rest, w := words[..|words| - 1], words[|words| - 1];
    LeadStays(t, c);
    assert words == rest + [w];
    assert Join(Words(t + [c])) == Join(words) + [c] by {
      WordsAppend(t, c);
      JoinLongerWord(rest, w, c);
    }
    Regroup(lead, Join(words), "", [c]);
    assert "" + [c] == [c];
  }

  lemma BetweenWords(t: string, c: char)
    requires t == "" || !Alnum(t[|t| - 1])
    requires Alnum(c)
    ensures Lead(t) + Join(Words(t)) + Tail(t) + [c] == Lead(t + [c]) + Join(Words(t + [c]))
  {
    var lead, words := Lead(t), Words(t);
    LeadStays(t, c);
    assert Join(Words(t + [c])) == if words == [] then [c] else Join(words) + "-" + [c] by {
      WordsAppend(t, c);
      JoinNewWord(words, [c]);
    }
    Regroup(lead, Join(words), Tail(t), [c]);
    if words == [] { assert Join(words) + Tail(t) + [c] == [c]; }
  }

  lemma {:induction false} NoWords(t: string)
    requires t != "" && Words(t) == []
    ensures !Alnum(t[0])
    decreases |t|
  {
    WordsAreOk(t);
    if |t| > 1 { NoWords(t[..|t| - 1]); }
  }

  lemma CollapseSeparator(t: string, c: char)
    requires !Alnum(c) && Collapse(t) == Lead(t) + Join(Words(t)) + Tail(t)
    ensures Collapse(t + [c]) == Lead(t + [c]) + Join(Words(t + [c])) + Tail(t + [c])
  {
    var s := t + [c];
    assert s[..|s| - 1] == t;
    WordsAreOk(t);
    if t != "" {
      if Words(t) == [] { NoWords(t); } else { JoinEnds(Words(t)); }
    }
  }

  lemma TrimLeftHyphen(s: string, t: string)
    requires s == "" || s == "-"
    requires t == "" || t[0] != '-'
    ensures TrimLeft(s + t) == t
  {
    assert s + t == if s == "" then t else "-" + t;
    if s == "-" { assert (s + t)[1..] == t; }
  }

  lemma TrimRightHyphen(s: string, t: string)
    requires t == "" || t == "-"
    requires s == "" || s[|s| - 1] != '-'
    ensures TrimRight(s + t) == s
  {
    if t == "-" { assert (s + t)[..|s|] == s; } else { assert s + t == s; }
  }

  /** A slug is the words of the lowered text joined by hyphens, or "untitled" when there are none. */
  lemma SlugifyJoinsWords(text: string, lower: string -> string)
    ensures Slugify(text, lower) == if Words(lower(text)) == [] then "untitled" else Join(Words(lower(text)))
  {
    var s := lower(text);
    var joined := Join(Words(s));
    CollapseJoins(s);
    WordsAreOk(s);
    if Words(s) == [] {
      assert Tail(s) == "" && Lead(s) + "" + "" == Lead(s);
      TrimLeftHyphen(Lead(s), "");
      assert Lead(s) + "" == Lead(s);
    } else {
      JoinEnds(Words(s));
      assert Lead(s) + joined + Tail(s) == Lead(s) + (joined + Tail(s));
      TrimLeftHyphen(Lead(s), joined + Tail(s));
      TrimRightHyphen(joined, Tail(s));
    }
  }

  /** Slugify always returns a slug. */
  lemma SlugifyReturnsSlug(text: string, lower: string -> string)
    ensures IsSlug(Slugify(text, lower))
  {
    SlugifyJoinsWords(text, lower);
    WordsAreOk(lower(text));
    if Words(lower(text)) == [] {
      assert WordsOk(["untitled"]) && Join(["untitled"]) == "untitled";
    }
  }

  lemma {:induction false} AppendWord(s: string, w: string)
    requires w != "" && AllAlnum(w) && (s == "" || !Alnum(s[|s| - 1]))
    ensures Words(s + w) == Words(s) + [w]
    decreases |w|
  {
    var v, c := w[..|w| - 1], w[|w| - 1];
    assert w == v + [c] && s + w == (s + v) + [c];
    WordsAppend(s + v, c);
    if v == "" {
      assert s + v == s;
    } else {
      AppendWord(s, v);
      assert (Words(s) + [v])[..|Words(s)|] == Words(s);
    }
  }

  lemma {:induction false} WordsOfJoin(words: seq<string>)
    requires WordsOk(words)
    ensures Words(Join(words)) == words
    decreases |words|
  {
    if words != [] {
      var rest, w := words[..|words| - 1], words[|words| - 1];
      assert words == rest + [w];
      JoinNewWord(rest, w);
      WordsOfJoin(rest);
      if rest == [] {
        AppendWord("", w);
        assert "" + w == w;
      } else {
        WordsAppend(Join(rest), '-');
        AppendWord(Join(rest) + "-", w);
      }
    }
  }

  /** Slugs, and nothing else, are what slugify leaves as it is; so slugify is idempotent. */
  lemma FixedIffSlug(s: string, lower: string -> string)
    requires lower(s) == s
    ensures Slugify(s, lower) == s <==> IsSlug(s)
  {
    SlugifyReturnsSlug(s, lower);
    if IsSlug(s) {
      var words :| words != [] && WordsOk(words) && s == Join(words);
      WordsOfJoin(words);
      SlugifyJoinsWords(s, lower);
    }
  }

  lemma SlugifyIdempotent(text: string, lower: string -> string)
    requires forall s :: IsSlug(s) ==> lower(s) == s
    ensures Slugify(Slugify(text, lower), lower) == Slugify(text, lower)
  {
    SlugifyReturnsSlug(text, lower);
    FixedIffSlug(Slugify(text, lower), lower);
  }

  // ---------------------------------------------------------------- a free slug

  function Digit(d: nat): char
    requires d < 10
  {
    '0' + d as char
  }

  function Decimal(n: nat): string {
    if n < 10 then [Digit(n)] else Decimal(n / 10) + [Digit(n % 10)]
  }

  function ValueOf(s: string): int {
    if s == "" then 0 else 10 * ValueOf(s[..|s| - 1]) + (s[|s| - 1] as int - '0' as int)
  }

  lemma {:induction false} DecimalReadsBack(n: nat)
    ensures ValueOf(Decimal(n)) == n
  {
    if n >= 10 {
      DecimalReadsBack(n / 10);
      assert Decimal(n)[..|Decimal(n)| - 1] == Decimal(n / 10);
    }
  }

  lemma {:induction false} DecimalDigits(n: nat)
    ensures forall c :: c in Decimal(n) ==> '0' <= c <= '9'
    ensures Decimal(n) != "" && (n > 0 ==> Decimal(n)[0] != '0')
  {
    if n >= 10 { DecimalDigits(n / 10); }
  }

  lemma {:induction false} DecimalIsAlnum(n: nat)
    ensures Decimal(n) != "" && AllAlnum(Decimal(n))
  {
    if n >= 10 { DecimalIsAlnum(n / 10); }
  }

  function Suffixed(desired: string, index: nat): string {
    desired + "-" + Decimal(index)
  }

  lemma SuffixedDiffers(desired: string, i: nat, j: nat)
    ensures Suffixed(desired, i) == Suffixed(desired, j) <==> i == j
    ensures Suffixed(desired, i) != desired
  {
    if Suffixed(desired, i) == Suffixed(desired, j) {
      var n := |desired + "-"|;
      assert Suffixed(desired, i)[n..] == Decimal(i) && Suffixed(desired, j)[n..] == Decimal(j);
      DecimalReadsBack(i);
      DecimalReadsBack(j);
    }
  }

  /** The wish and its suffixes below the index are all taken. */
  ghost predicate Tried(desired: string, taken: set<string>, index: nat) {
    desired in taken && forall j :: 2 <= j < index ==> Suffixed(desired, j) in taken
  }

  ghost function Attempts(desired: string, index: nat): set<string> {
    if index < 2 then {} else if index == 2 then {desired} else Attempts(desired, index - 1) + {Suffixed(desired, index - 1)}
  }

  lemma {:induction false} AttemptsAre(desired: string, index: nat)
    requires index >= 2
    ensures |Attempts(desired, index)| == index - 1
    ensures forall s :: s in Attempts(desired, index) <==> s == desired || exists j :: 2 <= j < index && s == Suffixed(desired, j)
    decreases index
  {
    if index > 2 {
      AttemptsAre(desired, index - 1);
      SuffixedDiffers(desired, index - 1, index - 1);
      forall j | 2 <= j < index - 1 ensures Suffixed(desired, j) != Suffixed(desired, index - 1) {
        SuffixedDiffers(desired, j, index - 1);
      }
    }
  }

  /** Pigeonhole: as many tries as there are taken slugs cannot all fail. */
  lemma TriesAreBounded(desired: string, taken: set<string>, index: nat)
    requires index >= 2 && Tried(desired, taken, index)
    ensures index - 1 <= |taken|
  {
    AttemptsAre(desired, index);
    SubsetSize(Attempts(desired, index), taken);
  }

  /** The slug to use: the wish itself, or its first free suffix, counting from 2. */
  ghost predicate FirstFree(desired: string, taken: set<string>, slug: string) {
    if desired !in taken then slug == desired
    else exists index ::
      2 <= index <= |taken| + 1 && Tried(desired, taken, index) && slug == Suffixed(desired, index) && slug !in taken
  }

  /** Counting on from an index below which everything is taken. */
  ghost function CountedOn(desired: string, taken: set<string>, index: nat): (slug: string)
    requires 2 <= index <= |taken| + 1 && Tried(desired, taken, index)
    ensures FirstFree(desired, taken, slug) && slug !in taken
    decreases |taken| + 1 - index
  {
    if Suffixed(desired, index) !in taken then Suffixed(desired, index)
    else
      TriesAreBounded(desired, taken, index + 1);
      CountedOn(desired, taken, index + 1)
  }

  ghost function FreeSlug(desired: string, taken: set<string>): (slug: string)
    ensures FirstFree(desired, taken, slug) && slug !in taken
  {
    if desired !in taken then desired
    else
      TriesAreBounded(desired, taken, 2);
      CountedOn(desired, taken, 2)
  }

  ghost predicate LowestFree(desired: string, taken: set<string>, n: nat, slug: string) {
    && n >= 2 && slug == desired + "-" + Decimal(n) && slug !in taken
    && forall j: nat :: 2 <= j < n ==> desired + "-" + Decimal(j) in taken
  }

  /** A taken wish gets a hyphen and the lowest number, from 2 on, with which it is free. */
  lemma FreeSlugMeans(desired: string, taken: set<string>)
    ensures desired !in taken ==> FreeSlug(desired, taken) == desired
    ensures desired in taken ==> exists n: nat :: LowestFree(desired, taken, n, FreeSlug(desired, taken))
  {
    if desired in taken {
      var n :| && 2 <= n <= |taken| + 1 && Tried(desired, taken, n)
               && FreeSlug(desired, taken) == Suffixed(desired, n) && Suffixed(desired, n) !in taken;
      assert FreeSlug(desired, taken) == desired + "-" + Decimal(n);
      forall j: nat | 2 <= j < n ensures desired + "-" + Decimal(j) in taken { assert Suffixed(desired, j) in taken; }
      assert LowestFree(desired, taken, n, FreeSlug(desired, taken));
    }
  }

  method UniqueSlug(desired: string, taken: set<string>) returns (slug: string)
    ensures slug == FreeSlug(desired, taken) && FirstFree(desired, taken, slug)
  {
    if desired !in taken { return desired; }
    var index: nat := 2;
    TriesAreBounded(desired, taken, index);
    while Suffixed(desired, index) in taken
      invariant 2 <= index <= |taken| + 1 && Tried(desired, taken, index)
      decreases |taken| + 1 - index
    {
      TriesAreBounded(desired, taken, index + 1);
      index := index + 1;
    }
    slug := Suffixed(desired, index);
    FirstFreeIsUnique(desired, taken, slug, FreeSlug(desired, taken));
  }

  /** There is exactly one first free slug, and it is a slug when the wish is. */
  lemma FirstFreeIsUnique(desired: string, taken: set<string>, a: string, b: string)
    requires FirstFree(desired, taken, a) && FirstFree(desired, taken, b)
    ensures a == b
  {
    if desired in taken {
      var i :| 2 <= i <= |taken| + 1 && Tried(desired, taken, i) && a == Suffixed(desired, i) && a !in taken;
      var j :| 2 <= j <= |taken| + 1 && Tried(desired, taken, j) && b == Suffixed(desired, j) && b !in taken;
      assert i >= j && j >= i;
    }
  }

  lemma FirstFreeIsSlug(desired: string, taken: set<string>, slug: string)
    requires IsSlug(desired) && FirstFree(desired, taken, slug)
    ensures IsSlug(slug)
  {
    if desired in taken {
      var index :|
        2 <= index <= |taken| + 1 && Tried(desired, taken, index) && slug == Suffixed(desired, index) && slug !in taken;
      var words :| words != [] && WordsOk(words) && desired == Join(words);
      DecimalIsAlnum(index);
      JoinNewWord(words, Decimal(index));
      var longer := words + [Decimal(index)];
      assert longer != [] && WordsOk(longer) && slug == Join(longer);
    }
  }
}
