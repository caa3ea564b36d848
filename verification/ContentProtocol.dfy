/**
 Content saves as a transition system. The blob store lies outside the transaction, so a save runs as separate
 steps: it reads the article and the next version number, puts its blob under that number, and commits or fails.
 Any number of saves, of the same article too, may be under way at once.
 */
module ContentProtocol {
  import opened Prelude
  import opened Content
  import opened ContentSafety

  type SaveId = nat

  /** A save under way: the row it read (none for a new article), the row and version it will add, and its blob. */
  datatype Save = Save(id: Id, read: Option<Article>, row: Article, version: Version, body: string, placed: bool)

  datatype World = World(db: Db, saves: map<SaveId, Save>)

  datatype Event =
    | BeginCreate(save: SaveId, id: Id, article: NewArticle, chosen: string)
    | BeginEdit(save: SaveId, niche: Id, id: Id, edit: Edit)
    | Place(save: SaveId)
    | Commit(save: SaveId)
    | Fail(save: SaveId)
    | Touched(niche: Id, id: Id, edit: Edit)
    | Moved(niche: Id, id: Id, action: Action, actor: string, now: int)
    | Deleted(niche: Id, id: Id, actor: string, now: int)

  /** An edit that gets as far as saving a version. */
  predicate EditSaves(db: Db, niche: Id, id: Id, e: Edit) {
    EditRefusal(db, niche, id, e).None? && ContentChanged(db, db.articles[id], e)
  }

  function CreateSave(db: Db, id: Id, r: NewArticle, chosen: string, hash: string -> string): Save {
    var v := VersionFor(db, id, r.title, r.excerpt, r.body, hash);
    Save(id, None, NewRow(r, chosen, v), v, r.body, false)
  }

  function EditSave(db: Db, id: Id, e: Edit, hash: string -> string): Save
    requires id in db.articles
  {
    var a := db.articles[id];
    var v := EditVersion(db, id, a, e, hash);
    Save(id, Some(a), EditedArticle(a, e, v), v, EditBody(db, a, e), false)
  }

  /**
   A commit is refused when the number is taken, when the slug is, or when the article is not as it was read:
   the database part of a save is one transaction.
   */
  predicate MayCommit(db: Db, s: Save) {
    && s.placed
    && s.version.number == NextNumber(VersionsOf(db, s.id))
    && (if s.read.Some? then s.id in db.articles && db.articles[s.id] == s.read.value else s.id !in db.articles)
    && !SlugTaken(db, s.row.niche, s.row.slug, Some(s.id))
  }

  function Step(w: World, e: Event, hash: string -> string): World {
    match e
    case BeginCreate(s, id, r, chosen) =>
      if s in w.saves || id in w.db.articles || CreateRefusal(w.db, r, chosen).Some? then w
      else w.(saves := w.saves[s := CreateSave(w.db, id, r, chosen, hash)])
    case BeginEdit(s, niche, id, edit) =>
      if s in w.saves || !EditSaves(w.db, niche, id, edit) then w
      else w.(saves := w.saves[s := EditSave(w.db, id, edit, hash)])
    case Place(s) =>
      if s !in w.saves || w.saves[s].placed then w
      else World(PlaceDb(w.db, w.saves[s].version.ref, w.saves[s].body), w.saves[s := w.saves[s].(placed := true)])
    case Commit(s) =>
      if s !in w.saves then w
      else
        var save := w.saves[s];
        World(if MayCommit(w.db, save) then ExtendDb(w.db, save.id, save.version, save.row) else w.db, w.saves - {s})
    case Fail(s) => w.(saves := w.saves - {s})
    case Touched(niche, id, edit) =>
      if EditSaves(w.db, niche, id, edit) then w else w.(db := UpdateDb(w.db, niche, id, edit, true, hash).0)
    case Moved(niche, id, action, actor, now) => w.(db := TransitionDb(w.db, niche, id, action, actor, now).0)
    case Deleted(niche, id, actor, now) => w.(db := DeleteDb(w.db, niche, id, actor, now).0)
  }

  function Run(w: World, es: seq<Event>, hash: string -> string): World
    decreases |es|
  {
    if es == [] then w else Run(Step(w, es[0], hash), es[1..], hash)
  }

  const EMPTY := World(Db(map[], map[], map[]), map[])

  // ---------------------------------------------------------------- an undisturbed save is the service's

  /** As long as nobody has written a row, an edit that was read may commit. */
  lemma EditMayCommit(db: Db, db': Db, niche: Id, id: Id, e: Edit, hash: string -> string)
    requires Shaped(db) && EditSaves(db, niche, id, e) && db'.articles == db.articles && db'.versions == db.versions
    ensures MayCommit(db', EditSave(db, id, e, hash).(placed := true))
  {
    var save := EditSave(db, id, e, hash);
    EditKeepsSlugFree(db, niche, id, e, save.row);
    FreeIsUntaken(db, id, save.row);
    SlugTakenByRows(db, db', niche, save.row.slug, Some(id));
    assert VersionsOf(db', id) == VersionsOf(db, id);
  }

  /** With nobody in between, the three steps are what one call of the service does. */
  lemma UndisturbedEdit(w: World, s: SaveId, niche: Id, id: Id, e: Edit, hash: string -> string)
    requires Shaped(w.db) && s !in w.saves && EditSaves(w.db, niche, id, e)
    ensures
      var placed := Step(Step(w, BeginEdit(s, niche, id, e), hash), Place(s), hash);
      && Step(placed, Commit(s), hash).db == UpdateDb(w.db, niche, id, e, true, hash).0
      && Step(placed, Fail(s), hash).db == UpdateDb(w.db, niche, id, e, false, hash).0
  {
    var save := EditSave(w.db, id, e, hash).(placed := true);
    var placed := Step(Step(w, BeginEdit(s, niche, id, e), hash), Place(s), hash);
    EditPlaced(w, s, niche, id, e, hash);
    EditMayCommit(w.db, placed.db, niche, id, e, hash);
    assert Step(placed, Commit(s), hash).db == ExtendDb(placed.db, id, save.version, save.row);
    EditInParts(w.db, niche, id, e, hash);
  }

  lemma EditPlaced(w: World, s: SaveId, niche: Id, id: Id, e: Edit, hash: string -> string)
    requires s !in w.saves && EditSaves(w.db, niche, id, e)
    ensures
      var placed := Step(Step(w, BeginEdit(s, niche, id, e), hash), Place(s), hash);
      var save := EditSave(w.db, id, e, hash);
      placed.db == PutDb(w.db, id, save.body) && s in placed.saves && placed.saves[s] == save.(placed := true)
  {
  }

  /** The edit of the service is its blob and, if it commits, its version and row. */
  lemma EditInParts(db: Db, niche: Id, id: Id, e: Edit, hash: string -> string)
    requires EditSaves(db, niche, id, e)
    ensures
      var save := EditSave(db, id, e, hash);
      var put := PutDb(db, id, save.body);
      && UpdateDb(db, niche, id, e, true, hash).0 == ExtendDb(put, id, save.version, save.row)
      && UpdateDb(db, niche, id, e, false, hash).0 == put
  {
  }

  lemma UndisturbedCreate(w: World, s: SaveId, id: Id, r: NewArticle, chosen: string, hash: string -> string)
    requires s !in w.saves && id !in w.db.articles && CreateRefusal(w.db, r, chosen).None?
    ensures
      var placed := Step(Step(w, BeginCreate(s, id, r, chosen), hash), Place(s), hash);
      && Step(placed, Commit(s), hash).db == CreateDb(w.db, id, r, chosen, true, hash).0
      && Step(placed, Fail(s), hash).db == CreateDb(w.db, id, r, chosen, false, hash).0
  {
    var save := CreateSave(w.db, id, r, chosen, hash);
    var placed := Step(Step(w, BeginCreate(s, id, r, chosen), hash), Place(s), hash);
    assert placed.db == PutDb(w.db, id, save.body) && placed.saves[s] == save.(placed := true);
    NewRowFits(w.db, id, r, chosen, save.version);
    FreeIsUntaken(w.db, id, save.row);
    SlugTakenByRows(w.db, placed.db, r.niche, chosen, Some(id));
    assert VersionsOf(placed.db, id) == VersionsOf(w.db, id);
  }

  lemma FreeIsUntaken(db: Db, id: Id, a: Article)
    requires SlugFree(db.articles, id, a)
    ensures !SlugTaken(db, a.niche, a.slug, Some(id))
  {
    forall x | x in db.articles && SlugHolder(db, x, a.niche, a.slug) ensures x == id {
      assert SameSlug(db.articles[x], a);
    }
  }

  lemma SlugTakenByRows(a: Db, b: Db, niche: Id, slug: string, except: Option<Id>)
    requires a.articles == b.articles
    ensures SlugTaken(a, niche, slug, except) <==> SlugTaken(b, niche, slug, except)
  {
    forall x ensures SlugHolder(a, x, niche, slug) <==> SlugHolder(b, x, niche, slug) {}
  }

  // ---------------------------------------------------------------- the shape, in every run

  /** What a save has in hand: a version under its own key, and a row that shows it or, if published, what it showed. */
  ghost predicate SaveOk(db: Db, s: Save, hash: string -> string) {
    && s.version.number >= 1 && s.version.ref == Ref(s.id, s.version.number) && s.version.checksum == hash(s.body)
    && s.version.number <= NextNumber(VersionsOf(db, s.id))
    && (s.placed ==> s.version.ref in db.blobs)
    && RowOk(s)
  }

  predicate RowOk(s: Save) {
    if s.read.Some? && s.read.value.status.Published? then LooksSame(s.read.value, s.row)
    else PointsAt(s.row, s.version) && !s.row.status.Published?
         && (s.read.Some? ==> s.row.publishedAt == s.read.value.publishedAt && s.row.author == s.read.value.author)
  }

  /** The part of an article row that readers depend on. */
  predicate LooksSame(a: Article, b: Article) {
    && a.niche == b.niche && a.slug == b.slug && a.title == b.title && a.excerpt == b.excerpt && a.status == b.status
    && a.ref == b.ref && a.checksum == b.checksum && a.author == b.author && a.publishedAt == b.publishedAt
    && a.deletedAt == b.deletedAt
  }

  ghost predicate WorldOk(w: World, hash: string -> string) {
    Shaped(w.db) && forall s :: s in w.saves ==> SaveOk(w.db, w.saves[s], hash)
  }

  lemma CommitKeepsShaped(db: Db, s: Save, hash: string -> string)
    requires Shaped(db) && SaveOk(db, s, hash) && MayCommit(db, s)
    ensures Shaped(ExtendDb(db, s.id, s.version, s.row))
  {
    var vs := VersionsOf(db, s.id);
    var more := vs + [s.version];
    NextIsLength(db, s.id);
    UntakenIsFree(db, s.id, s.row);
    if s.read.Some? && s.read.value.status.Published? {
      assert EntryOk(db, s.id);
      var k :| 0 <= k < |vs| && PointsAt(db.articles[s.id], vs[k]);
      assert PointsAt(s.row, more[k]);
    } else {
      assert PointsAt(s.row, more[|vs|]);
    }
    ExtendKeepsShaped(db, s.id, s.version, s.row);
  }

  lemma TouchedShaped(db: Db, niche: Id, id: Id, e: Edit, hash: string -> string)
    requires Shaped(db) && !EditSaves(db, niche, id, e)
    ensures Shaped(UpdateDb(db, niche, id, e, true, hash).0)
  {
    if EditRefusal(db, niche, id, e).None? { TouchKeepsShaped(db, niche, id, e); }
  }

  lemma StepKeepsShaped(w: World, e: Event, hash: string -> string)
    requires WorldOk(w, hash)
    ensures Shaped(Step(w, e, hash).db)
  {
    match e
    case Place(s) => if s in w.saves { PlaceKeepsShaped(w.db, w.saves[s].version.ref, w.saves[s].body); }
    case Commit(s) => if s in w.saves && MayCommit(w.db, w.saves[s]) { CommitKeepsShaped(w.db, w.saves[s], hash); }
    case Touched(niche, id, edit) => if !EditSaves(w.db, niche, id, edit) { TouchedShaped(w.db, niche, id, edit, hash); }
    case Moved(niche, id, action, actor, now) => TransitionKeepsShaped(w.db, niche, id, action, actor, now);
    case Deleted(niche, id, actor, now) => DeleteKeepsShaped(w.db, niche, id, actor, now);
    case _ =>
  }

  /** Versions only come, one at a time and at the end; blobs only come. */
  lemma StepGrows(w: World, e: Event, hash: string -> string, id: Id)
    ensures VersionsOf(w.db, id) <= VersionsOf(Step(w, e, hash).db, id)
    ensures |VersionsOf(Step(w, e, hash).db, id)| <= |VersionsOf(w.db, id)| + 1
    ensures w.db.blobs.Keys <= Step(w, e, hash).db.blobs.Keys
  {
  }

  lemma {:induction false} LongerIsHigher(vs: seq<Version>, more: seq<Version>)
    requires vs <= more
    ensures NextNumber(vs) <= NextNumber(more)
    decreases |more|
  {
    if |vs| < |more| { LongerIsHigher(vs, more[..|more| - 1]); } else { assert vs == more; }
  }

  /** A save in hand stays in order whatever else happens to the tables. */
  lemma SaveStaysOk(db: Db, db': Db, s: Save, hash: string -> string)
    requires SaveOk(db, s, hash) && VersionsOf(db, s.id) <= VersionsOf(db', s.id) && db.blobs.Keys <= db'.blobs.Keys
    ensures SaveOk(db', s, hash)
  {
    LongerIsHigher(VersionsOf(db, s.id), VersionsOf(db', s.id));
  }

  lemma BegunOk(w: World, e: Event, hash: string -> string)
    requires e.BeginCreate? || e.BeginEdit?
    requires e.save !in w.saves && e.save in Step(w, e, hash).saves
    ensures SaveOk(w.db, Step(w, e, hash).saves[e.save], hash)
  {
  }

  lemma StepKeepsSaves(w: World, e: Event, hash: string -> string, s: SaveId)
    requires WorldOk(w, hash) && s in Step(w, e, hash).saves
    ensures SaveOk(Step(w, e, hash).db, Step(w, e, hash).saves[s], hash)
  {
    var w' := Step(w, e, hash);
    if s in w.saves {
      var now := w'.saves[s];
      assert now == w.saves[s] || (e.Place? && e.save == s && now == w.saves[s].(placed := true));
      StepGrows(w, e, hash, now.id);
      SaveStaysOk(w.db, w'.db, w.saves[s], hash);
    } else {
      BegunOk(w, e, hash);
    }
  }

  lemma StepKeepsWorld(w: World, e: Event, hash: string -> string)
    requires WorldOk(w, hash)
    ensures WorldOk(Step(w, e, hash), hash)
  {
    StepKeepsShaped(w, e, hash);
    forall s | s in Step(w, e, hash).saves ensures SaveOk(Step(w, e, hash).db, Step(w, e, hash).saves[s], hash) {
      StepKeepsSaves(w, e, hash, s);
    }
  }

  lemma {:induction false} RunKeepsWorld(w: World, es: seq<Event>, hash: string -> string)
    requires WorldOk(w, hash)
    ensures WorldOk(Run(w, es, hash), hash)
    decreases |es|
  {
    if es != [] {
      StepKeepsWorld(w, es[0], hash);
      RunKeepsWorld(Step(w, es[0], hash), es[1..], hash);
    }
  }

  /**
   In every run, whatever saves overlap or fail: slugs are unique in a niche, versions are numbered 1 to n with a
   blob each, and the article shows one of its own versions.
   */
  lemma VersionsNumbered(es: seq<Event>, hash: string -> string, id: Id)
    requires id in Run(EMPTY, es, hash).db.articles
    ensures
      var db := Run(EMPTY, es, hash).db;
      var (a, vs) := (db.articles[id], VersionsOf(db, id));
      && (forall k :: 0 <= k < |vs| ==> vs[k].number == k + 1 && vs[k].ref == Ref(id, k + 1) && vs[k].ref in db.blobs)
      && (exists k :: 0 <= k < |vs| && PointsAt(a, vs[k]))
      && (forall x :: x in db.articles && SameSlug(db.articles[x], a) ==> x == id)
  {
    RunKeepsWorld(EMPTY, es, hash);
    var db := Run(EMPTY, es, hash).db;
    var vs := VersionsOf(db, id);
    assert EntryOk(db, id);
    forall k | 0 <= k < |vs| ensures vs[k].number == k + 1 && vs[k].ref == Ref(id, k + 1) && vs[k].ref in db.blobs {
      assert VersionAt(vs[k], id, k);
    }
  }
}
