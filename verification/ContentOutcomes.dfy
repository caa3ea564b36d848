/**
 What the editorial operations do to the rows, told field by field: the lifecycle, creating, editing and deleting, what a
 reader gets, and that what was asked for is what is read after publishing.
 */
module ContentOutcomes {
  import opened Prelude
  import opened Content
  import opened ContentSafety
  import opened ContentProtocol
  import Slug

  // ---------------------------------------------------------------- what is read

  /** An undeleted published article of the niche that bears the slug and whose blob is stored. */
  predicate Readable(db: Db, niche: Id, slug: string, id: Id) {
    && id in db.articles && db.articles[id].niche == niche && db.articles[id].slug == slug
    && db.articles[id].status == Published && db.articles[id].deletedAt == None
    && db.articles[id].ref.Some? && db.articles[id].ref.value in db.blobs
  }

  /** A reading is of such an article, has its row's fields and the blob at its row's key. */
  lemma ReadingMeans(db: Db, niche: Id, slug: string, v: View)
    ensures Reads(db, niche, slug, v) <==>
            && Readable(db, niche, slug, v.article)
            && var row := db.articles[v.article];
               && v.slug == slug && v.title == row.title && v.excerpt == row.excerpt && v.checksum == row.checksum
               && v.author == row.author && v.publishedAt == row.publishedAt && v.body == db.blobs[row.ref.value]
  {
  }

  /** And every such article has one. */
  lemma ReadingExists(db: Db, niche: Id, slug: string)
    ensures (exists v :: Reads(db, niche, slug, v)) <==> exists id :: Readable(db, niche, slug, id)
  {
    if v :| Reads(db, niche, slug, v) { ReadingMeans(db, niche, slug, v); }
    if id :| Readable(db, niche, slug, id) {
      var row := db.articles[id];
      var v := View(id, row.slug, row.title, row.excerpt, row.checksum, row.author, row.publishedAt,
                    db.blobs[row.ref.value]);
      ReadingMeans(db, niche, slug, v);
    }
  }

  // ---------------------------------------------------------------- the lifecycle

  predicate Shown(db: Db, niche: Id, id: Id) {
    id in db.articles && db.articles[id].niche == niche && db.articles[id].deletedAt == None
  }

  /** A step of the lifecycle that only writes the status and who took it. */
  function Stepped(db: Db, id: Id, status: Status, actor: string): (Db, Outcome)
    requires id in db.articles
  {
    (db.(articles := db.articles[id := db.articles[id].(status := status, editor := Some(actor))]), Saved)
  }

  /** Five actions only move the article along, each from the statuses that it takes. */
  lemma MovingAlong(db: Db, niche: Id, id: Id, actor: string, now: int)
    requires Shown(db, niche, id)
    ensures
      var from := db.articles[id].status;
      && TransitionDb(db, niche, id, Submit, actor, now) ==
         (if from == Draft then Stepped(db, id, Review, actor) else (db, Invalid))
      && TransitionDb(db, niche, id, Reject, actor, now) ==
         (if from == Review then Stepped(db, id, Draft, actor) else (db, Invalid))
      && TransitionDb(db, niche, id, Unpublish, actor, now) ==
         (if from == Published then Stepped(db, id, Unpublished, actor) else (db, Invalid))
      && TransitionDb(db, niche, id, Archive, actor, now) ==
         (if from == Published || from == Unpublished then Stepped(db, id, Archived, actor) else (db, Invalid))
      && TransitionDb(db, niche, id, Restore, actor, now) ==
         (if from == Archived then Stepped(db, id, Draft, actor) else (db, Invalid))
  {
  }

  /** What is not there, or not known, is refused and nothing is written. */
  lemma Refusing(db: Db, niche: Id, id: Id, action: Action, actor: string, now: int)
    ensures !Shown(db, niche, id) ==> TransitionDb(db, niche, id, action, actor, now) == (db, NotFound)
    ensures Shown(db, niche, id) && action == Unknown ==> TransitionDb(db, niche, id, action, actor, now) == (db, Invalid)
  {
  }

  /**
   Publishing takes drafts, withdrawn and published articles, approving those in review. The article then shows its last
   version; its first author and publication time are kept, if it has them.
   */
  lemma Publishing(db: Db, niche: Id, id: Id, action: Action, actor: string, now: int)
    requires Shaped(db) && Shown(db, niche, id) && (action == Publish || action == Approve)
    ensures
      var (a, vs) := (db.articles[id], VersionsOf(db, id));
      var may := if action == Approve then a.status == Review
                 else a.status == Draft || a.status == Unpublished || a.status == Published;
      var (db', outcome) := TransitionDb(db, niche, id, action, actor, now);
      if may && a.checksum != Some("") then
        && outcome == Saved && vs != [] && db'.versions == db.versions && db'.blobs == db.blobs
        && db'.articles == db.articles[id := db'.articles[id]]
        && PublishedAs(a, vs[|vs| - 1], db'.articles[id], actor, now)
      else (db', outcome) == (db, Invalid)
  {
    LastIsLatest(db, id);
    if action == Approve { Approving(db, niche, id, actor, now); } else { PublishingAnew(db, niche, id, actor, now); }
  }

  predicate HasVersion(db: Db, id: Id) {
    && id in db.articles && db.articles[id].ref.Some? && db.articles[id].checksum.Some?
    && var vs := VersionsOf(db, id); vs != [] && Latest(vs) == vs[|vs| - 1]
  }

  lemma Approving(db: Db, niche: Id, id: Id, actor: string, now: int)
    requires Shown(db, niche, id) && HasVersion(db, id)
    ensures
      var (a, vs) := (db.articles[id], VersionsOf(db, id));
      var (db', outcome) := TransitionDb(db, niche, id, Approve, actor, now);
      if a.status == Review && a.checksum != Some("") then
        && outcome == Saved && db'.versions == db.versions && db'.blobs == db.blobs
        && db'.articles == db.articles[id := db'.articles[id]]
        && PublishedAs(a, vs[|vs| - 1], db'.articles[id], actor, now)
      else (db', outcome) == (db, Invalid)
  {
  }

  lemma PublishingAnew(db: Db, niche: Id, id: Id, actor: string, now: int)
    requires Shown(db, niche, id) && HasVersion(db, id)
    ensures
      var (a, vs) := (db.articles[id], VersionsOf(db, id));
      var (db', outcome) := TransitionDb(db, niche, id, Publish, actor, now);
      if (a.status == Draft || a.status == Unpublished || a.status == Published) && a.checksum != Some("") then
        && outcome == Saved && db'.versions == db.versions && db'.blobs == db.blobs
        && db'.articles == db.articles[id := db'.articles[id]]
        && PublishedAs(a, vs[|vs| - 1], db'.articles[id], actor, now)
      else (db', outcome) == (db, Invalid)
  {
  }

  predicate PublishedAs(a: Article, v: Version, row: Article, actor: string, now: int) {
    && row.niche == a.niche && row.slug == a.slug && row.deletedAt == a.deletedAt
    && row.title == v.title && row.excerpt == v.excerpt && row.ref == Some(v.ref) && row.checksum == Some(v.checksum)
    && row.status == Published && row.editor == Some(actor)
    && row.author == (if a.author.Some? then a.author else Some(actor))
    && row.publishedAt == (if a.publishedAt.Some? then a.publishedAt else Some(now))
  }

  lemma LastIsLatest(db: Db, id: Id)
    requires Shaped(db) && id in db.articles
    ensures HasVersion(db, id)
  {
    var vs := VersionsOf(db, id);
    assert EntryOk(db, id);
    forall k | 0 <= k < |vs| ensures vs[k].number == k + 1 { assert VersionAt(vs[k], id, k); }
    LastOfNumbered(vs);
  }

  lemma LastOfNumbered(vs: seq<Version>)
    requires vs != [] && forall k :: 0 <= k < |vs| ==> vs[k].number == k + 1
    ensures Latest(vs) == vs[|vs| - 1]
  {
    NumbersGiveNext(vs);
  }

  // ---------------------------------------------------------------- creating, editing, deleting

  predicate Bears(db: Db, x: Id, niche: Id, slug: string) {
    x in db.articles && db.articles[x].niche == niche && db.articles[x].slug == slug
  }

  ghost predicate SlugIsFree(db: Db, niche: Id, slug: string, except: Option<Id>) {
    forall x :: x in db.articles && Some(x) != except ==> !Bears(db, x, niche, slug)
  }

  lemma TakenOrFree(db: Db, niche: Id, slug: string, except: Option<Id>)
    ensures SlugTaken(db, niche, slug, except) <==> !SlugIsFree(db, niche, slug, except)
  {
    if x :| x in db.articles && Some(x) != except && Bears(db, x, niche, slug) { assert SlugHolder(db, x, niche, slug); }
  }

  /**
   A wish for a slug is granted as it stands, but for the empty one, which means the title's. Without a wish it is the
   title's too if that is free, and otherwise the title's with the lowest number from 2 on that makes it free.
   */
  lemma ChoosingSlug(db: Db, r: NewArticle, lower: string -> string)
    ensures
      var (chosen, plain) := (ChosenSlug(db, r, lower), Slug.Slugify(r.title, lower));
      && (r.slug.Some? ==> chosen == if r.slug.value == "" then plain else r.slug.value)
      && (r.slug.None? ==>
            && SlugIsFree(db, r.niche, chosen, None)
            && if SlugIsFree(db, r.niche, plain, None) then chosen == plain
               else exists n: nat :: Numbered(db, r.niche, plain, n, chosen))
  {
    var (plain, taken) := (Slug.Slugify(r.title, lower), SlugsOf(db, r.niche));
    if r.slug.None? {
      Slug.FreeSlugMeans(plain, taken);
      FreeIffUntaken(db, r.niche);
      if plain in taken {
        var n: nat :| Slug.LowestFree(plain, taken, n, Slug.FreeSlug(plain, taken));
        assert Numbered(db, r.niche, plain, n, Slug.FreeSlug(plain, taken));
      }
    }
  }

  /** The slug with that number, when those with lower ones are borne already. */
  ghost predicate Numbered(db: Db, niche: Id, plain: string, n: nat, slug: string) {
    && n >= 2 && slug == plain + "-" + Slug.Decimal(n)
    && forall j: nat :: 2 <= j < n ==> !SlugIsFree(db, niche, plain + "-" + Slug.Decimal(j), None)
  }

  lemma FreeIffUntaken(db: Db, niche: Id)
    ensures forall slug :: SlugIsFree(db, niche, slug, None) <==> slug !in SlugsOf(db, niche)
  {
    forall slug ensures SlugIsFree(db, niche, slug, None) <==> slug !in SlugsOf(db, niche) {
      if x :| x in db.articles && Bears(db, x, niche, slug) { assert slug in SlugsOf(db, niche); }
    }
  }

  /** A new draft shows its first version, whose title, excerpt and body are those asked for. */
  lemma Creating(db: Db, id: Id, r: NewArticle, slug: string, hash: string -> string)
    requires Shaped(db) && id !in db.articles && r.taxonomyOk && SlugIsFree(db, r.niche, slug, None)
    requires r.slug.Some? ==> SlugIsFree(db, r.niche, r.slug.value, None)
    ensures
      var (ref, key) := (Ref(id, 1), hash(r.body));
      CreateDb(db, id, r, slug, true, hash) ==
      (Db(db.articles[id := Article(r.niche, slug, r.title, r.excerpt, Draft, Some(ref), Some(key), None, r.actor, None,
                                    None)],
          db.versions[id := [Version(1, r.title, r.excerpt, ref, key)]],
          db.blobs[ref := r.body]), Saved)
  {
    TakenOrFree(db, r.niche, slug, None);
    if r.slug.Some? { TakenOrFree(db, r.niche, r.slug.value, None); }
    assert VersionsOf(db, id) == [] && NextNumber([]) == 1 && [] + [Version(1, r.title, r.excerpt, Ref(id, 1), hash(r.body))]
           == [Version(1, r.title, r.excerpt, Ref(id, 1), hash(r.body))];
  }

  /** An article is refused for its taxonomy or for a slug that is taken, and then nothing is written. */
  lemma CreatingRefused(db: Db, id: Id, r: NewArticle, slug: string, commits: bool, hash: string -> string)
    ensures
      CreateDb(db, id, r, slug, commits, hash).1 == Saved ==>
        r.taxonomyOk && commits && SlugIsFree(db, r.niche, slug, None)
    ensures
      var (db', outcome) := CreateDb(db, id, r, slug, commits, hash);
      && (!r.taxonomyOk ==> (db', outcome) == (db, Invalid))
      && (r.taxonomyOk && r.slug.Some? && !SlugIsFree(db, r.niche, r.slug.value, None) ==> (db', outcome) == (db, Duplicate))
      && (outcome != Saved ==> db'.articles == db.articles && db'.versions == db.versions)
  {
    TakenOrFree(db, r.niche, slug, None);
    if r.slug.Some? { TakenOrFree(db, r.niche, r.slug.value, None); }
  }

  /** What an edit asks for, field by field; what it does not mention stays. */
  predicate Wanted(a: Article, body: string, e: Edit, title: string, excerpt: string, text: string) {
    && title == (if e.title.Some? then e.title.value else a.title)
    && excerpt == (if e.excerpt.Some? then e.excerpt.value else a.excerpt)
    && text == (if e.body.Some? then e.body.value else body)
  }

  predicate MayEdit(db: Db, niche: Id, id: Id, e: Edit) {
    && Shown(db, niche, id)
    && (db.articles[id].status == Draft || db.articles[id].status == Unpublished || db.articles[id].status == Published)
    && (e.slug.None? || e.slug.value == db.articles[id].slug) && e.taxonomy.None?
  }

  /** The body an article shows. */
  function BodyOf(db: Db, id: Id): string
    requires id in db.articles
  {
    var ref := db.articles[id].ref;
    if ref.Some? && ref.value in db.blobs then db.blobs[ref.value] else ""
  }

  /**
   An edit that changes content adds the next version with what it asks for. A draft or withdrawn article then shows it;
   a published one goes on showing what it showed.
   */
  lemma Editing(db: Db, niche: Id, id: Id, e: Edit, title: string, excerpt: string, body: string, hash: string -> string)
    requires Shaped(db) && MayEdit(db, niche, id, e) && Wanted(db.articles[id], BodyOf(db, id), e, title, excerpt, body)
    requires title != db.articles[id].title || excerpt != db.articles[id].excerpt || body != BodyOf(db, id)
    ensures
      var (a, vs) := (db.articles[id], VersionsOf(db, id));
      var v := Version(|vs| + 1, title, excerpt, Ref(id, |vs| + 1), hash(body));
      var row := if a.status == Published then a.(editor := Some(e.actor))
                 else a.(title := title, excerpt := excerpt, ref := Some(v.ref), checksum := Some(v.checksum),
                         editor := Some(e.actor));
      UpdateDb(db, niche, id, e, true, hash) ==
      (Db(db.articles[id := row], db.versions[id := vs + [v]], db.blobs[v.ref := body]), Saved)
  {
    NextIsLength(db, id);
  }

  /** An edit that changes nothing writes nothing; one whose transaction fails writes at most its blob. */
  lemma EditingIdly(db: Db, niche: Id, id: Id, e: Edit, hash: string -> string)
    requires MayEdit(db, niche, id, e)
    ensures Wanted(db.articles[id], BodyOf(db, id), e, db.articles[id].title, db.articles[id].excerpt, BodyOf(db, id)) ==>
              UpdateDb(db, niche, id, e, true, hash) == (db, Saved)
    ensures
      var (db', outcome) := UpdateDb(db, niche, id, e, false, hash);
      outcome == Aborted && db'.articles == db.articles && db'.versions == db.versions
  {
  }

  /** Changing the slug or the taxonomy is for articles that are not published, and a slug must be free. */
  lemma EditingRefused(db: Db, niche: Id, id: Id, e: Edit, commits: bool, hash: string -> string)
    ensures
      var (db', outcome) := UpdateDb(db, niche, id, e, commits, hash);
      if !Shown(db, niche, id) then (db', outcome) == (db, NotFound)
      else
        var a := db.articles[id];
        var slugNew := e.slug.Some? && e.slug.value != a.slug;
        if a.status == Review || a.status == Archived || (a.status == Published && slugNew)
        then (db', outcome) == (db, Invalid)
        else if slugNew && !SlugIsFree(db, niche, e.slug.value, Some(id)) then (db', outcome) == (db, Duplicate)
        else if (a.status == Published && e.taxonomy.Some?) || e.taxonomy == Some(false) then (db', outcome) == (db, Invalid)
        else outcome == if commits then Saved else Aborted
  {
    if e.slug.Some? { TakenOrFree(db, niche, e.slug.value, Some(id)); }
  }

  /** A saved edit leaves the article with the slug asked for and the editor who asked. */
  lemma EditingRenames(db: Db, niche: Id, id: Id, e: Edit, hash: string -> string)
    requires UpdateDb(db, niche, id, e, true, hash).1 == Saved
    ensures
      var row := UpdateDb(db, niche, id, e, true, hash).0.articles[id];
      && id in db.articles && row.slug == (if e.slug.Some? then e.slug.value else db.articles[id].slug)
      && (e.taxonomy.Some? || row.slug != db.articles[id].slug ==> row.editor == Some(e.actor))
  {
  }

  lemma Deleting(db: Db, niche: Id, id: Id, actor: string, now: int)
    ensures
      DeleteDb(db, niche, id, actor, now) ==
      if !Shown(db, niche, id) then (db, NotFound)
      else if db.articles[id].status == Published || db.articles[id].status == Unpublished then (db, Invalid)
      else (db.(articles := db.articles[id := db.articles[id].(deletedAt := Some(now), editor := Some(actor))]), Saved)
  {
  }

  // ---------------------------------------------------------------- what was asked for is what is read

  /** Somebody who publishes a new article reads back the title, the excerpt and the body that it was created with. */
  lemma CreatedIsRead(db: Db, id: Id, r: NewArticle, slug: string, actor: string, now: int, hash: string -> string)
    requires Sound(db, hash) && id !in db.articles && r.taxonomyOk && SlugIsFree(db, r.niche, slug, None)
    requires (r.slug.Some? ==> SlugIsFree(db, r.niche, r.slug.value, None)) && hash(r.body) != ""
    ensures
      var created := CreateDb(db, id, r, slug, true, hash).0;
      var (db', outcome) := TransitionDb(created, r.niche, id, Publish, actor, now);
      && outcome == Saved
      && ReadsAs(db', r.niche, slug, View(id, slug, r.title, r.excerpt, Some(hash(r.body)), Some(actor), Some(now),
                                          r.body))
  {
    var created := CreateDb(db, id, r, slug, true, hash).0;
    Creating(db, id, r, slug, hash);
    CreateKeepsSound(db, id, r, slug, true, hash);
    Publishing(created, r.niche, id, Publish, actor, now);
    PublishedIsRead(created, r.niche, id, VersionsOf(created, id)[0], actor, now, hash);
  }

  /** A reader of the slug gets this and nothing else. */
  ghost predicate ReadsAs(db: Db, niche: Id, slug: string, view: View) {
    forall v :: Reads(db, niche, slug, v) <==> v == view
  }

  /** The one reading of a slug is that of its article. */
  lemma OnlyReading(db: Db, niche: Id, slug: string, id: Id)
    requires SlugsUnique(db.articles) && Readable(db, niche, slug, id)
    ensures
      var row := db.articles[id];
      ReadsAs(db, niche, slug, View(id, slug, row.title, row.excerpt, row.checksum, row.author, row.publishedAt,
                                    db.blobs[row.ref.value]))
  {
    var row := db.articles[id];
    forall v ensures Reads(db, niche, slug, v) <==>
        v == View(id, slug, row.title, row.excerpt, row.checksum, row.author, row.publishedAt, db.blobs[row.ref.value])
    {
      ReadingMeans(db, niche, slug, v);
      if Readable(db, niche, slug, v.article) { assert SameSlug(db.articles[v.article], row); }
    }
  }

  /** And so after an edit: published, the article reads as asked for, whatever it showed before. */
  lemma EditedIsRead(db: Db, niche: Id, id: Id, e: Edit, title: string, excerpt: string, body: string, actor: string,
                     now: int, hash: string -> string)
    requires Sound(db, hash) && MayEdit(db, niche, id, e) && hash(body) != ""
    requires Wanted(db.articles[id], BodyOf(db, id), e, title, excerpt, body) && db.articles[id].checksum != Some("")
    requires title != db.articles[id].title || excerpt != db.articles[id].excerpt || body != BodyOf(db, id)
    ensures
      var edited := UpdateDb(db, niche, id, e, true, hash).0;
      var (db', outcome) := TransitionDb(edited, niche, id, Publish, actor, now);
      && outcome == Saved && id in db'.articles
      && ReadsAs(db', niche, db.articles[id].slug,
                 View(id, db.articles[id].slug, title, excerpt, Some(hash(body)), db'.articles[id].author,
                      db'.articles[id].publishedAt, body))
  {
    var edited := UpdateDb(db, niche, id, e, true, hash).0;
    Editing(db, niche, id, e, title, excerpt, body, hash);
    UpdateKeepsSound(db, niche, id, e, true, hash);
    var vs := VersionsOf(edited, id);
    assert db.articles[id].checksum.Some? by { LastIsLatest(db, id); }
    PublishedIsRead(edited, niche, id, vs[|vs| - 1], actor, now, hash);
  }

  /** A published article reads as its last version. */
  lemma PublishedIsRead(db: Db, niche: Id, id: Id, v: Version, actor: string, now: int, hash: string -> string)
    requires Sound(db, hash) && Shown(db, niche, id) && db.articles[id].checksum != Some("")
    requires db.articles[id].status == Draft || db.articles[id].status == Unpublished || db.articles[id].status == Published
    requires VersionsOf(db, id) != [] && v == VersionsOf(db, id)[|VersionsOf(db, id)| - 1] && v.ref in db.blobs
    ensures
      var a := db.articles[id];
      var (db', outcome) := TransitionDb(db, niche, id, Publish, actor, now);
      && outcome == Saved && id in db'.articles
      && ReadsAs(db', niche, a.slug, View(id, a.slug, v.title, v.excerpt, Some(v.checksum), db'.articles[id].author,
                                          db'.articles[id].publishedAt, db.blobs[v.ref]))
  {
    var db' := TransitionDb(db, niche, id, Publish, actor, now).0;
    Publishing(db, niche, id, Publish, actor, now);
    assert SlugsUnique(db'.articles) by { TransitionKeepsSound(db, niche, id, Publish, actor, now, hash); }
    PublishedRowReads(db', niche, id, db.articles[id], v, actor, now);
  }

  lemma PublishedRowReads(db: Db, niche: Id, id: Id, a: Article, v: Version, actor: string, now: int)
    requires SlugsUnique(db.articles) && id in db.articles && PublishedAs(a, v, db.articles[id], actor, now)
    requires a.niche == niche && a.deletedAt == None && v.ref in db.blobs
    ensures ReadsAs(db, niche, a.slug, View(id, a.slug, v.title, v.excerpt, Some(v.checksum), db.articles[id].author,
                                            db.articles[id].publishedAt, db.blobs[v.ref]))
  {
    OnlyReading(db, niche, a.slug, id);
  }

  // ---------------------------------------------------------------- the steps of overlapping saves

  /** Putting a blob is seen at once and touches no row. */
  lemma Placing(w: World, s: SaveId, hash: string -> string)
    requires s in w.saves && !w.saves[s].placed
    ensures
      var save := w.saves[s];
      Step(w, Place(s), hash) ==
      World(Db(w.db.articles, w.db.versions, w.db.blobs[save.version.ref := save.body]),
            w.saves[s := save.(placed := true)])
  {
  }

  predicate AsRead(db: Db, save: Save) {
    if save.read.Some? then save.id in db.articles && db.articles[save.id] == save.read.value
    else save.id !in db.articles
  }

  /** A commit after the blob succeeds exactly if its number is the next, the article as it was read and the slug free. */
  lemma Committing(w: World, s: SaveId, hash: string -> string)
    requires s in w.saves && w.saves[s].placed
    ensures
      var (save, db, w') := (w.saves[s], w.db, Step(w, Commit(s), hash));
      && w'.saves == w.saves - {s}
      && w'.db ==
         if save.version.number == NextNumber(VersionsOf(db, save.id)) && AsRead(db, save)
            && SlugIsFree(db, save.row.niche, save.row.slug, Some(save.id))
         then Db(db.articles[save.id := save.row],
                 db.versions[save.id := VersionsOf(db, save.id) + [save.version]], db.blobs)
         else db
  {
    TakenOrFree(w.db, w.saves[s].row.niche, w.saves[s].row.slug, Some(w.saves[s].id));
  }

  /** A failed save is gone, with its blob where it was; what takes one transaction writes what its call writes. */
  lemma WholeCalls(w: World, s: SaveId, niche: Id, id: Id, action: Action, actor: string, now: int, hash: string -> string)
    ensures Step(w, Fail(s), hash) == World(w.db, w.saves - {s})
    ensures Step(w, Moved(niche, id, action, actor, now), hash) ==
            World(TransitionDb(w.db, niche, id, action, actor, now).0, w.saves)
    ensures Step(w, Deleted(niche, id, actor, now), hash) == World(DeleteDb(w.db, niche, id, actor, now).0, w.saves)
  {
  }

  /** So does an edit that changes no content. */
  lemma TouchingRows(w: World, niche: Id, id: Id, e: Edit, hash: string -> string)
    requires Shown(w.db, niche, id)
    requires Wanted(w.db.articles[id], BodyOf(w.db, id), e, w.db.articles[id].title, w.db.articles[id].excerpt,
                    BodyOf(w.db, id))
    ensures Step(w, Touched(niche, id, e), hash) == World(UpdateDb(w.db, niche, id, e, true, hash).0, w.saves)
  {
  }
}
