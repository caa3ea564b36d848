/** What the content tables keep: the shape of the version ledger, and blobs that fit their checksums. */
module ContentSafety {
  import opened Prelude
  import opened Content

  // ---------------------------------------------------------------- the invariants

  predicate VersionAt(v: Version, id: Id, k: nat) {
    v.number == k + 1 && v.ref == Ref(id, k + 1)
  }

  /** Versions are numbered 1 to n, and there is a blob where their number says. */
  ghost predicate Numbered(vs: seq<Version>, id: Id, blobs: map<Ref, string>) {
    forall k :: 0 <= k < |vs| ==> VersionAt(vs[k], id, k) && vs[k].ref in blobs
  }

  predicate PointsAt(a: Article, v: Version) {
    a.title == v.title && a.excerpt == v.excerpt && a.ref == Some(v.ref) && a.checksum == Some(v.checksum)
  }

  ghost predicate ArticleOk(a: Article, vs: seq<Version>) {
    exists k :: 0 <= k < |vs| && PointsAt(a, vs[k])
  }

  ghost predicate EntryOk(db: Db, id: Id)
    requires id in db.articles
  {
    ArticleOk(db.articles[id], VersionsOf(db, id)) && Numbered(VersionsOf(db, id), id, db.blobs)
  }

  /** Slugs are unique, versions are numbered and stored, and every article shows one of its own. */
  ghost predicate Shaped(db: Db) {
    && SlugsUnique(db.articles)
    && (forall id :: id in db.versions ==> id in db.articles)
    && (forall id :: id in db.articles ==> EntryOk(db, id))
  }

  /** The blob a version points to has the version's checksum. */
  predicate Fits(v: Version, blobs: map<Ref, string>, hash: string -> string) {
    v.ref in blobs && hash(blobs[v.ref]) == v.checksum
  }

  ghost predicate LedgerFits(vs: seq<Version>, blobs: map<Ref, string>, hash: string -> string) {
    forall k :: 0 <= k < |vs| ==> Fits(vs[k], blobs, hash)
  }

  ghost predicate AllFit(db: Db, hash: string -> string) {
    forall id :: id in db.articles ==> LedgerFits(VersionsOf(db, id), db.blobs, hash)
  }

  ghost predicate Sound(db: Db, hash: string -> string) {
    Shaped(db) && AllFit(db, hash)
  }

  lemma {:induction false} NumbersGiveNext(vs: seq<Version>)
    requires forall k :: 0 <= k < |vs| ==> vs[k].number == k + 1
    ensures NextNumber(vs) == |vs| + 1
    ensures vs != [] ==> Latest(vs) == vs[|vs| - 1]
    decreases |vs|
  {
    if vs != [] { NumbersGiveNext(vs[..|vs| - 1]); }
  }

  lemma NextIsLength(db: Db, id: Id)
    requires Shaped(db)
    ensures NextNumber(VersionsOf(db, id)) == |VersionsOf(db, id)| + 1
    ensures VersionsOf(db, id) != [] ==> Latest(VersionsOf(db, id)) == VersionsOf(db, id)[|VersionsOf(db, id)| - 1]
  {
    var vs := VersionsOf(db, id);
    if id in db.articles {
      assert EntryOk(db, id);
      forall k | 0 <= k < |vs| ensures vs[k].number == k + 1 { assert VersionAt(vs[k], id, k); }
    }
    NumbersGiveNext(vs);
  }

  // ---------------------------------------------------------------- writing a blob

  function PlaceDb(db: Db, ref: Ref, body: string): Db {
    db.(blobs := db.blobs[ref := body])
  }

  /** A committed version is kept under this key. */
  predicate Committed(db: Db, ref: Ref) {
    ref.article in db.articles && 1 <= ref.version <= |VersionsOf(db, ref.article)|
  }

  function VersionUnder(db: Db, ref: Ref): Version
    requires Committed(db, ref)
  {
    VersionsOf(db, ref.article)[ref.version - 1]
  }

  lemma PlaceKeepsShaped(db: Db, ref: Ref, body: string)
    requires Shaped(db)
    ensures Shaped(PlaceDb(db, ref, body))
  {
    var db' := PlaceDb(db, ref, body);
    forall id | id in db'.articles ensures EntryOk(db', id) {
      assert EntryOk(db, id);
      assert VersionsOf(db', id) == VersionsOf(db, id);
    }
  }

  /** Two versions of a shaped ledger are kept under different keys. */
  lemma KeyIsOwn(db: Db, id: Id, k: nat, ref: Ref)
    requires Shaped(db) && id in db.articles && k < |VersionsOf(db, id)|
    ensures VersionsOf(db, id)[k].ref == ref <==> Committed(db, ref) && ref == Ref(id, k + 1)
  {
    assert EntryOk(db, id);
    assert VersionAt(VersionsOf(db, id)[k], id, k);
  }

  /** A blob written where nothing is committed, or with the committed checksum, does no harm. */
  lemma HarmlessPlace(db: Db, ref: Ref, body: string, hash: string -> string)
    requires Sound(db, hash) && (Committed(db, ref) ==> hash(body) == VersionUnder(db, ref).checksum)
    ensures AllFit(PlaceDb(db, ref, body), hash)
  {
    var db' := PlaceDb(db, ref, body);
    forall id | id in db'.articles ensures LedgerFits(VersionsOf(db', id), db'.blobs, hash) {
      var vs := VersionsOf(db, id);
      assert VersionsOf(db', id) == vs && LedgerFits(vs, db.blobs, hash);
      forall k | 0 <= k < |vs| ensures Fits(vs[k], db'.blobs, hash) {
        KeyIsOwn(db, id, k, ref);
        assert Fits(vs[k], db.blobs, hash);
      }
    }
  }

  lemma HarmfulPlace(db: Db, ref: Ref, body: string, hash: string -> string)
    requires Shaped(db) && Committed(db, ref) && hash(body) != VersionUnder(db, ref).checksum
    ensures !AllFit(PlaceDb(db, ref, body), hash)
  {
    var db' := PlaceDb(db, ref, body);
    var vs := VersionsOf(db', ref.article);
    assert vs == VersionsOf(db, ref.article);
    KeyIsOwn(db, ref.article, ref.version - 1, ref);
    assert !Fits(vs[ref.version - 1], db'.blobs, hash);
    assert !LedgerFits(vs, db'.blobs, hash);
  }

  // ---------------------------------------------------------------- writing rows

  ghost predicate SlugFree(articles: map<Id, Article>, id: Id, a: Article) {
    forall x :: x in articles && x != id ==> !SameSlug(articles[x], a)
  }

  lemma PlaceKeepsUnique(articles: map<Id, Article>, id: Id, a: Article)
    requires SlugsUnique(articles) && SlugFree(articles, id, a)
    ensures SlugsUnique(articles[id := a])
  {
  }

  /** The version and the row that a committing save adds. */
  function ExtendDb(db: Db, id: Id, v: Version, a: Article): Db {
    AddVersionDb(db, id, v).(articles := db.articles[id := a])
  }

  lemma ExtendKeepsShaped(db: Db, id: Id, v: Version, a: Article)
    requires Shaped(db) && SlugFree(db.articles, id, a) && v.ref in db.blobs
    requires VersionAt(v, id, |VersionsOf(db, id)|) && ArticleOk(a, VersionsOf(db, id) + [v])
    ensures Shaped(ExtendDb(db, id, v, a))
  {
    var db' := ExtendDb(db, id, v, a);
    PlaceKeepsUnique(db.articles, id, a);
    forall x | x in db'.articles ensures EntryOk(db', x) {
      if x in db.articles { assert EntryOk(db, x); }
      assert x != id ==> VersionsOf(db', x) == VersionsOf(db, x);
      if x == id { ExtendedNumbered(db, id, v); }
    }
  }

  lemma ExtendedNumbered(db: Db, id: Id, v: Version)
    requires Shaped(db) && v.ref in db.blobs && VersionAt(v, id, |VersionsOf(db, id)|)
    ensures Numbered(VersionsOf(db, id) + [v], id, db.blobs)
  {
    var vs := VersionsOf(db, id);
    if id in db.articles { assert EntryOk(db, id); }
    forall k | 0 <= k < |vs + [v]| ensures VersionAt((vs + [v])[k], id, k) && (vs + [v])[k].ref in db.blobs {
      if k < |vs| { assert VersionAt(vs[k], id, k); }
    }
  }

  lemma ExtendHarmless(db: Db, id: Id, v: Version, a: Article, hash: string -> string)
    requires AllFit(db, hash) && Fits(v, db.blobs, hash) && (id in db.versions ==> id in db.articles)
    ensures AllFit(ExtendDb(db, id, v, a), hash)
  {
    var db' := ExtendDb(db, id, v, a);
    forall x | x in db'.articles ensures LedgerFits(VersionsOf(db', x), db'.blobs, hash) {
      if x in db.articles { assert LedgerFits(VersionsOf(db, x), db.blobs, hash); }
      if x == id { assert VersionsOf(db', x) == VersionsOf(db, x) + [v]; }
    }
  }

  lemma ExtendHarmful(db: Db, id: Id, v: Version, a: Article, hash: string -> string)
    requires !Fits(v, db.blobs, hash)
    ensures !AllFit(ExtendDb(db, id, v, a), hash)
  {
    var db' := ExtendDb(db, id, v, a);
    var more := VersionsOf(db', id);
    assert more == VersionsOf(db, id) + [v] && more[|more| - 1] == v;
    assert !LedgerFits(more, db'.blobs, hash);
  }

  /** A commit keeps every blob fitting exactly when the new version's blob fits. */
  lemma ExtendFits(db: Db, id: Id, v: Version, a: Article, hash: string -> string)
    requires Sound(db, hash)
    ensures AllFit(ExtendDb(db, id, v, a), hash) <==> Fits(v, db.blobs, hash)
  {
    if Fits(v, db.blobs, hash) { ExtendHarmless(db, id, v, a, hash); } else { ExtendHarmful(db, id, v, a, hash); }
  }

  /** A new row for an article that shows one of its versions. */
  lemma RowKeepsShaped(db: Db, id: Id, a: Article)
    requires Shaped(db) && id in db.articles && SlugFree(db.articles, id, a) && ArticleOk(a, VersionsOf(db, id))
    ensures Shaped(db.(articles := db.articles[id := a]))
  {
    var db' := db.(articles := db.articles[id := a]);
    PlaceKeepsUnique(db.articles, id, a);
    forall x | x in db'.articles ensures EntryOk(db', x) {
      assert EntryOk(db, x) && VersionsOf(db', x) == VersionsOf(db, x);
    }
  }

  /** Fitting is a matter of versions and blobs alone. */
  lemma RowsKeepFit(db: Db, db': Db, hash: string -> string)
    requires AllFit(db, hash)
    requires db'.articles.Keys == db.articles.Keys && db'.versions == db.versions && db'.blobs == db.blobs
    ensures AllFit(db', hash)
  {
    forall x | x in db'.articles ensures LedgerFits(VersionsOf(db', x), db'.blobs, hash) {
      assert LedgerFits(VersionsOf(db, x), db.blobs, hash) && VersionsOf(db', x) == VersionsOf(db, x);
    }
  }

  lemma SameSlugIsFree(articles: map<Id, Article>, id: Id, a: Article)
    requires SlugsUnique(articles) && id in articles && SameSlug(articles[id], a)
    ensures SlugFree(articles, id, a)
  {
    var b := articles[id];
    forall x | x in articles && x != id ensures !SameSlug(articles[x], a) {
      assert SameSlug(articles[x], a) == SameSlug(articles[x], b);
    }
  }

  lemma UntakenIsFree(db: Db, id: Id, a: Article)
    requires !SlugTaken(db, a.niche, a.slug, Some(id))
    ensures SlugFree(db.articles, id, a)
  {
    forall x | x in db.articles && x != id ensures !SameSlug(db.articles[x], a) {
      assert SameSlug(db.articles[x], a) ==> SlugHolder(db, x, a.niche, a.slug);
    }
  }

  // ---------------------------------------------------------------- one operation at a time

  /** A save with nobody in between: its blob, then its version and row. */
  lemma SaveKeepsSound(db: Db, id: Id, v: Version, a: Article, body: string, hash: string -> string)
    requires Sound(db, hash) && SlugFree(db.articles, id, a) && v == VersionFor(db, id, v.title, v.excerpt, body, hash)
    requires ArticleOk(a, VersionsOf(db, id) + [v])
    ensures Sound(PutDb(db, id, body), hash)
    ensures Sound(ExtendDb(PutDb(db, id, body), id, v, a), hash)
  {
    var put := PutDb(db, id, body);
    NextIsLength(db, id);
    assert put == PlaceDb(db, v.ref, body);
    PlaceKeepsShaped(db, v.ref, body);
    HarmlessPlace(db, v.ref, body, hash);
    assert VersionsOf(put, id) == VersionsOf(db, id);
    ExtendKeepsShaped(put, id, v, a);
    ExtendFits(put, id, v, a, hash);
  }

  lemma CreateKeepsSound(db: Db, id: Id, r: NewArticle, chosen: string, commits: bool, hash: string -> string)
    requires Sound(db, hash) && id !in db.articles
    ensures Sound(CreateDb(db, id, r, chosen, commits, hash).0, hash)
  {
    if CreateRefusal(db, r, chosen).None? {
      var v := VersionFor(db, id, r.title, r.excerpt, r.body, hash);
      NewRowFits(db, id, r, chosen, v);
      SaveKeepsSound(db, id, v, NewRow(r, chosen, v), r.body, hash);
    }
  }

  lemma NewRowFits(db: Db, id: Id, r: NewArticle, chosen: string, v: Version)
    requires CreateRefusal(db, r, chosen).None? && v.title == r.title && v.excerpt == r.excerpt
    ensures SlugFree(db.articles, id, NewRow(r, chosen, v)) && ArticleOk(NewRow(r, chosen, v), VersionsOf(db, id) + [v])
  {
    var a, more := NewRow(r, chosen, v), VersionsOf(db, id) + [v];
    forall x | x in db.articles ensures !SameSlug(db.articles[x], a) {
      assert SameSlug(db.articles[x], a) ==> SlugHolder(db, x, r.niche, chosen);
    }
    assert PointsAt(a, more[|more| - 1]);
  }

  lemma EditKeepsSlugFree(db: Db, niche: Id, id: Id, e: Edit, a: Article)
    requires SlugsUnique(db.articles) && EditRefusal(db, niche, id, e).None?
    requires a.niche == niche && a.slug == OrElse(e.slug, db.articles[id].slug)
    ensures SlugFree(db.articles, id, a)
  {
    if SlugChanged(db.articles[id], e) { UntakenIsFree(db, id, a); } else { SameSlugIsFree(db.articles, id, a); }
  }

  lemma EditedRowFits(db: Db, niche: Id, id: Id, e: Edit, hash: string -> string)
    requires Shaped(db) && EditRefusal(db, niche, id, e).None?
    ensures
      var v := EditVersion(db, id, db.articles[id], e, hash);
      var a := EditedArticle(db.articles[id], e, v);
      SlugFree(db.articles, id, a) && ArticleOk(a, VersionsOf(db, id) + [v])
  {
    var a, vs := db.articles[id], VersionsOf(db, id);
    var v := EditVersion(db, id, a, e, hash);
    var row, more := EditedArticle(a, e, v), vs + [v];
    assert EntryOk(db, id);
    var k :| 0 <= k < |vs| && PointsAt(a, vs[k]);
    assert PointsAt(row, more[if a.status.Published? then k else |vs|]);
    EditKeepsSlugFree(db, niche, id, e, row);
  }

  lemma SavingEditKeepsSound(db: Db, niche: Id, id: Id, e: Edit, commits: bool, hash: string -> string)
    requires Sound(db, hash) && EditRefusal(db, niche, id, e).None? && ContentChanged(db, db.articles[id], e)
    ensures Sound(UpdateDb(db, niche, id, e, commits, hash).0, hash)
  {
    var a := db.articles[id];
    var v := EditVersion(db, id, a, e, hash);
    EditedRowFits(db, niche, id, e, hash);
    SaveKeepsSound(db, id, v, EditedArticle(a, e, v), EditBody(db, a, e), hash);
  }

  lemma TouchingEditWritesRow(db: Db, niche: Id, id: Id, e: Edit, commits: bool, hash: string -> string)
    requires EditRefusal(db, niche, id, e).None? && !ContentChanged(db, db.articles[id], e)
    ensures
      var (a, db') := (db.articles[id], UpdateDb(db, niche, id, e, commits, hash).0);
      && db'.articles.Keys == db.articles.Keys && db'.versions == db.versions && db'.blobs == db.blobs
      && (db' == db || db' == db.(articles := db.articles[id := a.(slug := OrElse(e.slug, a.slug), editor := Some(e.actor))]))
  {
  }

  lemma TouchingEditKeepsSound(db: Db, niche: Id, id: Id, e: Edit, commits: bool, hash: string -> string)
    requires Sound(db, hash) && EditRefusal(db, niche, id, e).None? && !ContentChanged(db, db.articles[id], e)
    ensures Sound(UpdateDb(db, niche, id, e, commits, hash).0, hash)
  {
    var db' := UpdateDb(db, niche, id, e, commits, hash).0;
    TouchingEditWritesRow(db, niche, id, e, commits, hash);
    assert Shaped(db') by { TouchKeepsShaped(db, niche, id, e); }
    assert AllFit(db', hash) by { RowsKeepFit(db, db', hash); }
  }

  lemma UpdateKeepsSound(db: Db, niche: Id, id: Id, e: Edit, commits: bool, hash: string -> string)
    requires Sound(db, hash)
    ensures Sound(UpdateDb(db, niche, id, e, commits, hash).0, hash)
  {
    if EditRefusal(db, niche, id, e).None? {
      if ContentChanged(db, db.articles[id], e) {
        SavingEditKeepsSound(db, niche, id, e, commits, hash);
      } else {
        TouchingEditKeepsSound(db, niche, id, e, commits, hash);
      }
    }
  }

  /** An edit that saves nothing only writes the slug and the editor. */
  lemma TouchKeepsShaped(db: Db, niche: Id, id: Id, e: Edit)
    requires Shaped(db) && EditRefusal(db, niche, id, e).None?
    ensures
      var a := db.articles[id];
      Shaped(db.(articles := db.articles[id := a.(slug := OrElse(e.slug, a.slug), editor := Some(e.actor))]))
  {
    var a, vs := db.articles[id], VersionsOf(db, id);
    var row := a.(slug := OrElse(e.slug, a.slug), editor := Some(e.actor));
    assert EntryOk(db, id);
    var k :| 0 <= k < |vs| && PointsAt(a, vs[k]);
    assert PointsAt(row, vs[k]);
    EditKeepsSlugFree(db, niche, id, e, row);
    RowKeepsShaped(db, id, row);
  }

  lemma TransitionKeepsShaped(db: Db, niche: Id, id: Id, action: Action, actor: string, now: int)
    requires Shaped(db)
    ensures Shaped(TransitionDb(db, niche, id, action, actor, now).0)
  {
    var (db', outcome) := TransitionDb(db, niche, id, action, actor, now);
    if outcome.Saved? {
      var a, vs := db.articles[id], VersionsOf(db, id);
      assert EntryOk(db, id);
      var k :| 0 <= k < |vs| && PointsAt(a, vs[k]);
      NextIsLength(db, id);
      var row := db'.articles[id];
      assert PointsAt(row, vs[if Publishes(action) then |vs| - 1 else k]);
      SameSlugIsFree(db.articles, id, row);
      RowKeepsShaped(db, id, row);
    }
  }

  lemma TransitionWritesRow(db: Db, niche: Id, id: Id, action: Action, actor: string, now: int)
    ensures
      var db' := TransitionDb(db, niche, id, action, actor, now).0;
      db'.articles.Keys == db.articles.Keys && db'.versions == db.versions && db'.blobs == db.blobs
  {
  }

  lemma TransitionKeepsSound(db: Db, niche: Id, id: Id, action: Action, actor: string, now: int, hash: string -> string)
    requires Sound(db, hash)
    ensures Sound(TransitionDb(db, niche, id, action, actor, now).0, hash)
  {
    var db' := TransitionDb(db, niche, id, action, actor, now).0;
    assert Shaped(db') by { TransitionKeepsShaped(db, niche, id, action, actor, now); }
    assert AllFit(db', hash) by {
      TransitionWritesRow(db, niche, id, action, actor, now);
      RowsKeepFit(db, db', hash);
    }
  }

  lemma DeleteKeepsShaped(db: Db, niche: Id, id: Id, actor: string, now: int)
    requires Shaped(db)
    ensures Shaped(DeleteDb(db, niche, id, actor, now).0)
  {
    var (db', outcome) := DeleteDb(db, niche, id, actor, now);
    if outcome.Saved? {
      var a, vs := db.articles[id], VersionsOf(db, id);
      assert EntryOk(db, id);
      var k :| 0 <= k < |vs| && PointsAt(a, vs[k]);
      assert PointsAt(db'.articles[id], vs[k]);
      SameSlugIsFree(db.articles, id, db'.articles[id]);
      RowKeepsShaped(db, id, db'.articles[id]);
    }
  }

  lemma DeleteWritesRow(db: Db, niche: Id, id: Id, actor: string, now: int)
    ensures
      var db' := DeleteDb(db, niche, id, actor, now).0;
      db'.articles.Keys == db.articles.Keys && db'.versions == db.versions && db'.blobs == db.blobs
  {
  }

  lemma DeleteKeepsSound(db: Db, niche: Id, id: Id, actor: string, now: int, hash: string -> string)
    requires Sound(db, hash)
    ensures Sound(DeleteDb(db, niche, id, actor, now).0, hash)
  {
    var db' := DeleteDb(db, niche, id, actor, now).0;
    assert Shaped(db') by { DeleteKeepsShaped(db, niche, id, actor, now); }
    assert AllFit(db', hash) by {
      DeleteWritesRow(db, niche, id, actor, now);
      RowsKeepFit(db, db', hash);
    }
  }
}
