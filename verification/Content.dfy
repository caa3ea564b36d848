/**
 Articles, their append-only versions and the blob store that lies outside the database: the operations of the
 editorial service.
 */
module Content {
  import opened Prelude
  import Slug

  type Id = nat

  datatype Status = Draft | Review | Published | Unpublished | Archived

  datatype Action = Submit | Approve | Reject | Publish | Unpublish | Archive | Restore | Unknown

  /** The lifecycle table. */
  function Target(status: Status, action: Action): Option<Status> {
    match (action, status)
    case (Submit, Draft) => Some(Review)
    case (Approve, Review) => Some(Published)
    case (Reject, Review) => Some(Draft)
    case (Publish, Draft) => Some(Published)
    case (Publish, Unpublished) => Some(Published)
    case (Publish, Published) => Some(Published)
    case (Unpublish, Published) => Some(Unpublished)
    case (Archive, Published) => Some(Archived)
    case (Archive, Unpublished) => Some(Archived)
    case (Restore, Archived) => Some(Draft)
    case _ => None
  }

  predicate Editable(status: Status) {
    status.Draft? || status.Unpublished? || status.Published?
  }

  /** A blob's key is made of the article's id and the version's number. */
  datatype Ref = Ref(article: Id, version: nat)

  datatype Article = Article(
    niche: Id,
    slug: string,
    title: string,
    excerpt: string,
    status: Status,
    ref: Option<Ref>,
    checksum: Option<string>,
    author: Option<string>,
    editor: Option<string>,
    publishedAt: Option<int>,
    deletedAt: Option<int>)

  datatype Version = Version(number: nat, title: string, excerpt: string, ref: Ref, checksum: string)

  datatype Db = Db(articles: map<Id, Article>, versions: map<Id, seq<Version>>, blobs: map<Ref, string>)

  datatype Outcome = Saved | NotFound | Duplicate | Invalid | Aborted

  // ---------------------------------------------------------------- queries

  predicate Visible(db: Db, niche: Id, id: Id) {
    id in db.articles && db.articles[id].niche == niche && db.articles[id].deletedAt.None?
  }

  /** Deleted articles keep their slug. */
  predicate SlugTaken(db: Db, niche: Id, slug: string, except: Option<Id>) {
    exists id :: id in db.articles && SlugHolder(db, id, niche, slug) && except != Some(id)
  }

  predicate SlugHolder(db: Db, id: Id, niche: Id, slug: string) {
    id in db.articles && db.articles[id].niche == niche && db.articles[id].slug == slug
  }

  ghost predicate SlugsUnique(articles: map<Id, Article>) {
    forall a, b :: a in articles && b in articles && SameSlug(articles[a], articles[b]) ==> a == b
  }

  predicate SameSlug(a: Article, b: Article) {
    a.niche == b.niche && a.slug == b.slug
  }

  function SlugsOf(db: Db, niche: Id): set<string> {
    set id | id in db.articles && db.articles[id].niche == niche :: db.articles[id].slug
  }

  function VersionsOf(db: Db, id: Id): seq<Version> {
    if id in db.versions then db.versions[id] else []
  }

  function HighestNumber(vs: seq<Version>): nat {
    if vs == [] then 0 else Max(HighestNumber(vs[..|vs| - 1]), vs[|vs| - 1].number)
  }

  function NextNumber(vs: seq<Version>): nat {
    HighestNumber(vs) + 1
  }

  /** The version with the highest number. */
  function Latest(vs: seq<Version>): Version
    requires vs != []
  {
    var n := |vs| - 1;
    if n == 0 || Latest(vs[..n]).number <= vs[n].number then vs[n] else Latest(vs[..n])
  }

  function BodyAt(db: Db, ref: Option<Ref>): Option<string> {
    if ref.Some? && ref.value in db.blobs then Some(db.blobs[ref.value]) else None
  }

  function OrElse<T>(choice: Option<T>, otherwise: T): T {
    if choice.Some? then choice.value else otherwise
  }

  // ---------------------------------------------------------------- saving

  function VersionFor(db: Db, id: Id, title: string, excerpt: string, body: string, hash: string -> string): Version {
    var number := NextNumber(VersionsOf(db, id));
    Version(number, title, excerpt, Ref(id, number), hash(body))
  }

  /** The blob is written before the database commits. */
  function PutDb(db: Db, id: Id, body: string): Db {
    db.(blobs := db.blobs[Ref(id, NextNumber(VersionsOf(db, id))) := body])
  }

  function AddVersionDb(db: Db, id: Id, v: Version): Db {
    db.(versions := db.versions[id := VersionsOf(db, id) + [v]])
  }

  function Pointed(a: Article, v: Version): Article {
    a.(title := v.title, excerpt := v.excerpt, ref := Some(v.ref), checksum := Some(v.checksum))
  }

  datatype NewArticle = NewArticle(
    niche: Id, title: string, excerpt: string, body: string, slug: Option<string>, taxonomyOk: bool, actor: Option<string>)

  /** The slug a new article gets: the first free one, or the one asked for; an empty wish falls back on the title. */
  ghost function ChosenSlug(db: Db, r: NewArticle, lower: string -> string): string {
    var slugified := Slug.Slugify(r.title, lower);
    if r.slug.None? then Slug.FreeSlug(slugified, SlugsOf(db, r.niche))
    else if r.slug.value == "" then slugified
    else r.slug.value
  }

  /** Why a new article is refused before anything is written. */
  function CreateRefusal(db: Db, r: NewArticle, chosen: string): Option<Outcome> {
    if !r.taxonomyOk then Some(Invalid)
    else if r.slug.Some? && SlugTaken(db, r.niche, r.slug.value, None) then Some(Duplicate)
    else if SlugTaken(db, r.niche, chosen, None) then Some(Aborted)
    else None
  }

  function NewRow(r: NewArticle, chosen: string, v: Version): Article {
    Article(r.niche, chosen, r.title, r.excerpt, Draft, Some(v.ref), Some(v.checksum), None, r.actor, None, None)
  }

  /** An article that asks for no slug is never refused for its slug. */
  lemma UnaskedSlugIsFree(db: Db, r: NewArticle, lower: string -> string)
    requires r.slug.None?
    ensures CreateRefusal(db, r, ChosenSlug(db, r, lower)) == if r.taxonomyOk then None else Some(Invalid)
  {
    var chosen := ChosenSlug(db, r, lower);
    forall id | id in db.articles ensures !SlugHolder(db, id, r.niche, chosen) {
      assert db.articles[id].niche == r.niche ==> db.articles[id].slug in SlugsOf(db, r.niche);
    }
  }

  function CreateDb(db: Db, id: Id, r: NewArticle, chosen: string, commits: bool, hash: string -> string): (Db, Outcome) {
    var refusal := CreateRefusal(db, r, chosen);
    if refusal.Some? then (db, refusal.value)
    else
      var v := VersionFor(db, id, r.title, r.excerpt, r.body, hash);
      var put := PutDb(db, id, r.body);
      if !commits then (put, Aborted)
      else (AddVersionDb(put, id, v).(articles := db.articles[id := NewRow(r, chosen, v)]), Saved)
  }

  /** What an edit asks for; taxonomy is None when untouched and otherwise says whether the new one is valid. */
  datatype Edit = Edit(
    title: Option<string>, excerpt: Option<string>, body: Option<string>, slug: Option<string>, taxonomy: Option<bool>,
    actor: string)

  predicate SlugChanged(a: Article, e: Edit) {
    e.slug.Some? && e.slug.value != a.slug
  }

  predicate ContentChanged(db: Db, a: Article, e: Edit) {
    var body := OrElse(BodyAt(db, a.ref), "");
    OrElse(e.title, a.title) != a.title || OrElse(e.excerpt, a.excerpt) != a.excerpt || OrElse(e.body, body) != body
  }

  /** Why an edit is refused before anything is written, in the order of the checks. */
  function EditRefusal(db: Db, niche: Id, id: Id, e: Edit): Option<Outcome> {
    if !Visible(db, niche, id) then Some(NotFound)
    else
      var a := db.articles[id];
      if !Editable(a.status) || (a.status.Published? && SlugChanged(a, e)) then Some(Invalid)
      else if SlugChanged(a, e) && SlugTaken(db, niche, e.slug.value, Some(id)) then Some(Duplicate)
      else if (a.status.Published? && e.taxonomy.Some?) || e.taxonomy == Some(false) then Some(Invalid)
      else None
  }

  function EditBody(db: Db, a: Article, e: Edit): string {
    OrElse(e.body, OrElse(BodyAt(db, a.ref), ""))
  }

  function EditVersion(db: Db, id: Id, a: Article, e: Edit, hash: string -> string): Version {
    VersionFor(db, id, OrElse(e.title, a.title), OrElse(e.excerpt, a.excerpt), EditBody(db, a, e), hash)
  }

  /** The article row after an edit that saved version v. */
  function EditedArticle(a: Article, e: Edit, v: Version): Article {
    var a1 := a.(slug := OrElse(e.slug, a.slug), editor := Some(e.actor));
    if a.status.Published? then a1 else Pointed(a1, v)
  }

  function UpdateDb(db: Db, niche: Id, id: Id, e: Edit, commits: bool, hash: string -> string): (Db, Outcome) {
    var refusal := EditRefusal(db, niche, id, e);
    if refusal.Some? then (db, refusal.value)
    else
      var a := db.articles[id];
      if ContentChanged(db, a, e) then
        var v := EditVersion(db, id, a, e, hash);
        var put := PutDb(db, id, EditBody(db, a, e));
        if !commits then (put, Aborted)
        else (AddVersionDb(put, id, v).(articles := db.articles[id := EditedArticle(a, e, v)]), Saved)
      else if !commits then (db, Aborted)
      else if e.taxonomy.Some? || SlugChanged(a, e) then
        (db.(articles := db.articles[id := a.(slug := OrElse(e.slug, a.slug), editor := Some(e.actor))]), Saved)
      else (db, Saved)
  }

  predicate Publishes(action: Action) {
    action.Publish? || action.Approve?
  }

  predicate HasContent(a: Article) {
    a.ref.Some? && a.checksum.Some? && a.checksum.value != ""
  }

  function TransitionDb(db: Db, niche: Id, id: Id, action: Action, actor: string, now: int): (Db, Outcome) {
    if !Visible(db, niche, id) then (db, NotFound)
    else
      var a := db.articles[id];
      var target := Target(a.status, action);
      if target.None? then (db, Invalid)
      else if Publishes(action) then
        if !HasContent(a) || VersionsOf(db, id) == [] then (db, Invalid)
        else
          var shown := Pointed(a, Latest(VersionsOf(db, id)));
          var row := shown.(author := Some(OrElse(a.author, actor)), publishedAt := Some(OrElse(a.publishedAt, now)));
          (db.(articles := db.articles[id := row.(status := target.value, editor := Some(actor))]), Saved)
      else (db.(articles := db.articles[id := a.(status := target.value, editor := Some(actor))]), Saved)
  }

  function DeleteDb(db: Db, niche: Id, id: Id, actor: string, now: int): (Db, Outcome) {
    if !Visible(db, niche, id) then (db, NotFound)
    else if db.articles[id].status.Published? || db.articles[id].status.Unpublished? then (db, Invalid)
    else (db.(articles := db.articles[id := db.articles[id].(deletedAt := Some(now), editor := Some(actor))]), Saved)
  }

  // ---------------------------------------------------------------- the public reading

  /** What a reader of a published article sees. */
  datatype View = View(
    article: Id, slug: string, title: string, excerpt: string, checksum: Option<string>, author: Option<string>,
    publishedAt: Option<int>, body: string)

  function ViewOf(db: Db, id: Id): Option<View> {
    if id !in db.articles || !db.articles[id].status.Published? || db.articles[id].deletedAt.Some? then None
    else
      var a := db.articles[id];
      match BodyAt(db, a.ref)
      case None => None
      case Some(body) => Some(View(id, a.slug, a.title, a.excerpt, a.checksum, a.author, a.publishedAt, body))
  }

  /** The readings that a slug has in a niche: those of the undeleted articles that bear it. */
  ghost predicate Reads(db: Db, niche: Id, slug: string, v: View) {
    exists id :: id in db.articles && Visible(db, niche, id) && db.articles[id].slug == slug && ViewOf(db, id) == Some(v)
  }

  // ---------------------------------------------------------------- the store

  /** The tables and the blob store. A method that answers Aborted has rolled its tables back, not its blob. */
  class ContentService {
    var articles: map<Id, Article>
    var versions: map<Id, seq<Version>>
    var blobs: map<Ref, string>
    const hash: string -> string
    const lower: string -> string

    constructor (hash: string -> string, lower: string -> string)
      ensures articles == map[] && versions == map[] && blobs == map[]
      ensures this.hash == hash && this.lower == lower
    {
      articles, versions, blobs := map[], map[], map[];
      this.hash, this.lower := hash, lower;
    }

    function Tables(): Db
      reads this
    {
      Db(articles, versions, blobs)
    }

    method SlugExists(niche: Id, slug: string, except: Option<Id>) returns (found: bool)
      ensures found <==> SlugTaken(Tables(), niche, slug, except)
    {
      var rest := articles.Keys;
      while rest != {}
        invariant rest <= articles.Keys
        invariant forall id :: id in articles.Keys - rest ==> !(SlugHolder(Tables(), id, niche, slug) && except != Some(id))
        decreases rest
      {
        var id :| id in rest;
        if articles[id].niche == niche && articles[id].slug == slug && except != Some(id) {
          assert SlugHolder(Tables(), id, niche, slug);
          return true;
        }
        rest := rest - {id};
      }
      return false;
    }

    method ExistingSlugs(niche: Id) returns (slugs: set<string>)
      ensures slugs == SlugsOf(Tables(), niche)
    {
      slugs := {};
      var rest := articles.Keys;
      while rest != {}
        invariant rest <= articles.Keys
        invariant slugs == set id | id in articles.Keys - rest && articles[id].niche == niche :: articles[id].slug
        decreases rest
      {
        var id :| id in rest;
        rest := rest - {id};
        if articles[id].niche == niche { slugs := slugs + {articles[id].slug}; }
      }
    }

    method NextVersionNo(id: Id) returns (number: nat)
      ensures number == NextNumber(VersionsOf(Tables(), id))
    {
      if id !in versions { return 1; }
      var vs, i := versions[id], 0;
      number := 0;
      while i < |vs|
        invariant 0 <= i <= |vs|
        invariant number == HighestNumber(vs[..i])
      {
        assert vs[..i + 1][..i] == vs[..i];
        number := Max(number, vs[i].number);
        i := i + 1;
      }
      assert vs[..i] == vs;
      number := number + 1;
    }

    method LatestVersion(vs: seq<Version>) returns (latest: Version)
      requires vs != []
      ensures latest == Latest(vs)
    {
      latest := vs[0];
      var i := 1;
      while i < |vs|
        invariant 1 <= i <= |vs|
        invariant latest == Latest(vs[..i])
      {
        assert vs[..i + 1][..i] == vs[..i];
        if latest.number <= vs[i].number { latest := vs[i]; }
        i := i + 1;
      }
      assert vs[..i] == vs;
    }

    /** Writes the blob at once and hands back the version row for the transaction to add. */
    method PutBlob(id: Id, title: string, excerpt: string, body: string) returns (v: Version)
      modifies this`blobs
      ensures v == VersionFor(old(Tables()), id, title, excerpt, body, hash)
      ensures Tables() == PutDb(old(Tables()), id, body)
    {
      var number := NextVersionNo(id);
      var ref := Ref(id, number);
      blobs := blobs[ref := body];
      v := Version(number, title, excerpt, ref, hash(body));
    }

    method ChooseSlug(r: NewArticle) returns (chosen: string)
      ensures chosen == ChosenSlug(Tables(), r, lower)
    {
      var slugified := Slug.Slugify(r.title, lower);
      if r.slug.None? {
        var taken := ExistingSlugs(r.niche);
        chosen := Slug.UniqueSlug(slugified, taken);
      } else {
        chosen := if r.slug.value == "" then slugified else r.slug.value;
      }
    }

    method CreateArticle(id: Id, r: NewArticle, commits: bool) returns (outcome: Outcome)
      requires id !in articles
      modifies this
      ensures
        var chosen := ChosenSlug(old(Tables()), r, lower);
        (Tables(), outcome) == CreateDb(old(Tables()), id, r, chosen, commits, hash)
    {
      var slug := ChooseSlug(r);
      if !r.taxonomyOk { outcome := Invalid; return; }
      if r.slug.Some? {
        var asked := SlugExists(r.niche, r.slug.value, None);
        if asked { outcome := Duplicate; return; }
      }
      var taken := SlugExists(r.niche, slug, None);
      if taken { outcome := Aborted; return; }
      var v := PutBlob(id, r.title, r.excerpt, r.body);
      if !commits { outcome := Aborted; return; }
      var a := Article(r.niche, slug, r.title, r.excerpt, Draft, None, None, None, r.actor, None, None);
      versions := versions[id := (if id in versions then versions[id] else []) + [v]];
      a := a.(ref := Some(v.ref));
      articles := articles[id := a.(checksum := Some(v.checksum))];
      outcome := Saved;
    }

    /** A new version; a published article keeps showing the old one. */
    method SaveEdit(id: Id, row: Article, title: string, excerpt: string, body: string, actor: string, commits: bool)
      returns (outcome: Outcome)
      modifies this
      ensures
        var v := VersionFor(old(Tables()), id, title, excerpt, body, hash);
        var put := PutDb(old(Tables()), id, body);
        var shown := if row.status.Published? then row else Pointed(row, v);
        (Tables(), outcome) ==
        if !commits then (put, Aborted)
        else (AddVersionDb(put, id, v).(articles := old(articles)[id := shown.(editor := Some(actor))]), Saved)
    {
      var v := PutBlob(id, title, excerpt, body);
      if !commits { return Aborted; }
      versions := versions[id := (if id in versions then versions[id] else []) + [v]];
      var shown := row;
      if !row.status.Published? { shown := Pointed(row, v); }
      articles := articles[id := shown.(editor := Some(actor))];
      return Saved;
    }

    method UpdateArticle(niche: Id, id: Id, e: Edit, commits: bool) returns (outcome: Outcome)
      modifies this
      ensures (Tables(), outcome) == UpdateDb(old(Tables()), niche, id, e, commits, hash)
    {
      if id !in articles || articles[id].niche != niche || articles[id].deletedAt.Some? { return NotFound; }
      var a := articles[id];
      if !Editable(a.status) { return Invalid; }
      var published := a.status.Published?;
      var slugChanged := false;
      var row := a;
      if e.slug.Some? && e.slug.value != a.slug {
        slugChanged := true;
        if published { return Invalid; }
        var taken := SlugExists(niche, e.slug.value, Some(id));
        if taken { return Duplicate; }
        row := row.(slug := e.slug.value);
      }
      if e.taxonomy.Some? && published { return Invalid; }
      var currentBody := if a.ref.Some? && a.ref.value in blobs then blobs[a.ref.value] else "";
      var title, excerpt := OrElse(e.title, a.title), OrElse(e.excerpt, a.excerpt);
      var body := OrElse(e.body, currentBody);
      var contentChanged := title != a.title || excerpt != a.excerpt || body != currentBody;
      if e.taxonomy == Some(false) { return Invalid; }
      assert EditRefusal(Tables(), niche, id, e).None? && contentChanged == ContentChanged(Tables(), a, e);
      if contentChanged {
        outcome := SaveEdit(id, row, title, excerpt, body, e.actor, commits);
      } else {
        if !commits { return Aborted; }
        if e.taxonomy.Some? || slugChanged { articles := articles[id := row.(editor := Some(e.actor))]; }
        outcome := Saved;
      }
    }

    method TransitionArticle(niche: Id, id: Id, action: Action, actor: string, now: int) returns (outcome: Outcome)
      modifies this`articles
      ensures (Tables(), outcome) == TransitionDb(old(Tables()), niche, id, action, actor, now)
    {
      if id !in articles || articles[id].niche != niche || articles[id].deletedAt.Some? { return NotFound; }
      var row := articles[id];
      var target := Target(row.status, action);
      if target.None? { return Invalid; }
      if Publishes(action) {
        if !HasContent(row) { return Invalid; }
        if id !in versions || versions[id] == [] { return Invalid; }
        var latest := LatestVersion(versions[id]);
        row := Pointed(row, latest);
        if row.author.None? { row := row.(author := Some(actor)); }
        if row.publishedAt.None? { row := row.(publishedAt := Some(now)); }
      }
      row := row.(status := target.value);
      articles := articles[id := row.(editor := Some(actor))];
      return Saved;
    }

    method SoftDelete(niche: Id, id: Id, actor: string, now: int) returns (outcome: Outcome)
      modifies this`articles
      ensures (Tables(), outcome) == DeleteDb(old(Tables()), niche, id, actor, now)
    {
      if id !in articles || articles[id].niche != niche || articles[id].deletedAt.Some? { return NotFound; }
      if articles[id].status.Published? || articles[id].status.Unpublished? { return Invalid; }
      articles := articles[id := articles[id].(deletedAt := Some(now), editor := Some(actor))];
      return Saved;
    }

    method GetPublished(niche: Id, slug: string) returns (reading: Option<View>)
      requires SlugsUnique(articles)
      ensures reading.Some? ==> Reads(Tables(), niche, slug, reading.value)
      ensures reading.None? ==> forall v :: !Reads(Tables(), niche, slug, v)
    {
      var rest := articles.Keys;
      while rest != {}
        invariant rest <= articles.Keys
        invariant forall id :: id in articles.Keys - rest ==> !(Visible(Tables(), niche, id) && articles[id].slug == slug)
        decreases rest
      {
        var id :| id in rest;
        if articles[id].niche == niche && articles[id].deletedAt.None? && articles[id].slug == slug {
          reading := ViewOf(Tables(), id);
          return;
        }
        rest := rest - {id};
      }
      reading := None;
    }
  }
}
