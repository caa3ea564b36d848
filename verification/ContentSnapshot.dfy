/** What readers of a published article see, over every run of saves, failures, transitions and deletions. */
module ContentSnapshot {
  import opened Prelude
  import opened Content
  import opened ContentSafety
  import opened ContentProtocol
  import opened ContentFit

  // ---------------------------------------------------------------- one slug, one reading

  /** A slug has at most one reading. */
  lemma OneReading(db: Db, niche: Id, slug: string, u: View, v: View)
    requires Shaped(db) && Reads(db, niche, slug, u) && Reads(db, niche, slug, v)
    ensures u == v
  {
    var a :| a in db.articles && Visible(db, niche, a) && db.articles[a].slug == slug && ViewOf(db, a) == Some(u);
    var b :| b in db.articles && Visible(db, niche, b) && db.articles[b].slug == slug && ViewOf(db, b) == Some(v);
    assert SameSlug(db.articles[a], db.articles[b]);
  }

  lemma ReadsByArticle(db: Db, niche: Id, slug: string, v: View)
    ensures Reads(db, niche, slug, v) <==>
            Visible(db, niche, v.article) && db.articles[v.article].slug == slug && ViewOf(db, v.article) == Some(v)
  {
  }

  // ---------------------------------------------------------------- the public row stays

  predicate LeavesAlone(e: Event, id: Id) {
    !(e.Moved? && e.id == id)
  }

  ghost predicate PublicRowKept(before: map<Id, Article>, after: map<Id, Article>, id: Id) {
    && (id in before ==> id in after && (before[id].status.Published? ==> LooksSame(before[id], after[id])))
    && (id in after && after[id].status.Published? ==> id in before && before[id].status.Published?)
  }

  lemma EditedRow(db: Db, niche: Id, id: Id, e: Edit, hash: string -> string, x: Id)
    ensures PublicRowKept(db.articles, UpdateDb(db, niche, id, e, true, hash).0.articles, x)
  {
  }

  lemma CommittedRow(db: Db, s: Save, x: Id)
    requires RowOk(s) && MayCommit(db, s)
    ensures PublicRowKept(db.articles, ExtendDb(db, s.id, s.version, s.row).articles, x)
  {
  }

  lemma OtherRows(w: World, e: Event, hash: string -> string, id: Id)
    requires LeavesAlone(e, id) && !e.Commit? && !e.Touched?
    ensures PublicRowKept(w.db.articles, Step(w, e, hash).db.articles, id)
  {
  }

  lemma TouchedRow(w: World, e: Event, hash: string -> string, id: Id)
    requires e.Touched?
    ensures PublicRowKept(w.db.articles, Step(w, e, hash).db.articles, id)
  {
    EditedRow(w.db, e.niche, e.id, e.edit, hash, id);
  }

  lemma SavedRow(w: World, e: Event, hash: string -> string, id: Id)
    requires e.Commit? && (e.save in w.saves ==> RowOk(w.saves[e.save]))
    ensures PublicRowKept(w.db.articles, Step(w, e, hash).db.articles, id)
  {
    if e.save in w.saves && MayCommit(w.db, w.saves[e.save]) { CommittedRow(w.db, w.saves[e.save], id); }
  }

  /** A published article keeps its public row, and nothing becomes published, unless it is moved. */
  lemma RowsStay(w: World, e: Event, hash: string -> string, id: Id)
    requires WorldOk(w, hash) && LeavesAlone(e, id)
    ensures PublicRowKept(w.db.articles, Step(w, e, hash).db.articles, id)
  {
    if e.Touched? {
      TouchedRow(w, e, hash, id);
    } else if e.Commit? {
      assert e.save in w.saves ==> RowOk(w.saves[e.save]) by {
        if e.save in w.saves { assert SaveOk(w.db, w.saves[e.save], hash); }
      }
      SavedRow(w, e, hash, id);
    } else {
      OtherRows(w, e, hash, id);
    }
  }

  // ---------------------------------------------------------------- what changes a reading

  /** A save puts another body under the key that a published article shows: something its caller can check. */
  predicate Defaces(w: World, e: Event, id: Id) {
    && ViewOf(w.db, id).Some?
    && PutsUnder(w, e, w.db.articles[id].ref.value)
    && w.saves[e.save].body != ViewOf(w.db, id).value.body
  }

  lemma ShownBlob(w: World, hash: string -> string, id: Id)
    requires WorldOk(w, hash) && id in w.db.articles
    ensures w.db.articles[id].ref.Some? && BodyAt(w.db, w.db.articles[id].ref).Some?
    ensures Committed(w.db, w.db.articles[id].ref.value)
  {
    var vs := VersionsOf(w.db, id);
    assert EntryOk(w.db, id);
    var k :| 0 <= k < |vs| && PointsAt(w.db.articles[id], vs[k]);
    assert VersionAt(vs[k], id, k);
  }

  /** But for transitions of the article itself, a step changes its reading exactly when it defaces it. */
  lemma ReadingChangesExactly(w: World, e: Event, hash: string -> string, id: Id)
    requires WorldOk(w, hash) && LeavesAlone(e, id)
    ensures ViewOf(Step(w, e, hash).db, id) == ViewOf(w.db, id) <==> !Defaces(w, e, id)
  {
    RowsStay(w, e, hash, id);
    if ViewOf(w.db, id).Some? {
      StepBlob(w, e, w.db.articles[id].ref.value, hash);
    } else if id in w.db.articles {
      ShownBlob(w, hash, id);
    }
  }

  /** A save that is serial never defaces: the key it puts under is not committed. */
  lemma SerialNeverDefaces(w: World, e: Event, hash: string -> string, id: Id)
    requires WorldOk(w, hash) && Serial(w)
    ensures !Defaces(w, e, id)
  {
    SerialIsHarmless(w, e, hash);
    if id in w.db.articles { ShownBlob(w, hash, id); }
  }

  // ---------------------------------------------------------------- whole runs

  /** The reading after some steps: the same, but for the body put last under its key. */
  function Overlaid(v: View, last: Option<string>): View {
    v.(body := OrElse(last, v.body))
  }

  lemma {:induction false} RowsStayInRun(w: World, es: seq<Event>, hash: string -> string, id: Id)
    requires WorldOk(w, hash) && forall i :: 0 <= i < |es| ==> LeavesAlone(es[i], id)
    ensures PublicRowKept(w.db.articles, Run(w, es, hash).db.articles, id)
    decreases |es|
  {
    if es != [] {
      assert LeavesAlone(es[0], id);
      RowsStay(w, es[0], hash, id);
      StepKeepsWorld(w, es[0], hash);
      RowsStayInRun(Step(w, es[0], hash), es[1..], hash, id);
    }
  }

  /** Through any run without a transition of the article, its reading is overlaid by the last put under its key. */
  lemma ReadingInRun(w: World, es: seq<Event>, hash: string -> string, id: Id)
    requires WorldOk(w, hash) && forall i :: 0 <= i < |es| ==> LeavesAlone(es[i], id)
    ensures ViewOf(w.db, id).None? ==> ViewOf(Run(w, es, hash).db, id).None?
    ensures ViewOf(w.db, id).Some? ==>
              var last := LastPut(w, es, w.db.articles[id].ref.value, hash);
              ViewOf(Run(w, es, hash).db, id) == Some(Overlaid(ViewOf(w.db, id).value, last))
  {
    RowsStayInRun(w, es, hash, id);
    if ViewOf(w.db, id).Some? {
      BlobIsLastPut(w, es, w.db.articles[id].ref.value, hash);
    } else if id in w.db.articles {
      ShownBlob(w, hash, id);
    }
  }

  /**
   The published snapshot, exactly. Through any run of creates, edits, deletions and failures on any articles, and
   transitions of other articles, what a slug reads is what it read, with the body put last under its key; so it is
   unchanged exactly when nothing, or that same body, was put last there.
   */
  lemma SnapshotIsImmutable(w: World, es: seq<Event>, hash: string -> string, niche: Id, slug: string, v: View)
    requires WorldOk(w, hash) && Reads(w.db, niche, slug, v)
    requires forall i :: 0 <= i < |es| ==> LeavesAlone(es[i], v.article)
    ensures v.article in w.db.articles && w.db.articles[v.article].ref.Some?
    ensures
      var last := LastPut(w, es, w.db.articles[v.article].ref.value, hash);
      && Reads(Run(w, es, hash).db, niche, slug, Overlaid(v, last))
      && (Reads(Run(w, es, hash).db, niche, slug, v) <==> (last.Some? ==> last.value == v.body))
  {
    var w' := Run(w, es, hash);
    ReadsByArticle(w.db, niche, slug, v);
    ReadingInRun(w, es, hash, v.article);
    RowsStayInRun(w, es, hash, v.article);
    RunKeepsWorld(w, es, hash);
    var last := LastPut(w, es, w.db.articles[v.article].ref.value, hash);
    ReadsByArticle(w'.db, niche, slug, Overlaid(v, last));
    if Reads(w'.db, niche, slug, v) { OneReading(w'.db, niche, slug, v, Overlaid(v, last)); }
  }

  /** Nothing else appears: whatever such a run makes readable was readable before. */
  lemma NothingAppears(w: World, es: seq<Event>, hash: string -> string, niche: Id, slug: string, v: View)
    requires WorldOk(w, hash) && Reads(Run(w, es, hash).db, niche, slug, v)
    requires forall i :: 0 <= i < |es| ==> LeavesAlone(es[i], v.article)
    ensures exists u :: Reads(w.db, niche, slug, u) && u.article == v.article
  {
    ReadsByArticle(Run(w, es, hash).db, niche, slug, v);
    ReadingInRun(w, es, hash, v.article);
    RowsStayInRun(w, es, hash, v.article);
    ReadsByArticle(w.db, niche, slug, ViewOf(w.db, v.article).value);
  }

  /** When the saves of each article do not overlap, the snapshot is immutable outright. */
  lemma {:induction false} SerialSnapshot(w: World, es: seq<Event>, hash: string -> string, id: Id)
    requires WorldOk(w, hash) && Serial(w) && SerialRun(w, es, hash)
    requires forall i :: 0 <= i < |es| ==> LeavesAlone(es[i], id)
    ensures ViewOf(Run(w, es, hash).db, id) == ViewOf(w.db, id)
    decreases |es|
  {
    if es != [] {
      assert LeavesAlone(es[0], id);
      SerialNeverDefaces(w, es[0], hash, id);
      ReadingChangesExactly(w, es[0], hash, id);
      StepKeepsSerial(w, es[0], hash);
      StepKeepsWorld(w, es[0], hash);
      SerialSnapshot(Step(w, es[0], hash), es[1..], hash, id);
    }
  }

  // ---------------------------------------------------------------- the first publication

  ghost predicate PublicationsKept(before: map<Id, Article>, after: map<Id, Article>) {
    forall id :: id in before ==>
      && id in after
      && (before[id].publishedAt.Some? ==> after[id].publishedAt == before[id].publishedAt)
      && (before[id].author.Some? ==> after[id].author == before[id].author)
  }

  lemma EditedPublication(db: Db, niche: Id, id: Id, e: Edit, hash: string -> string)
    ensures PublicationsKept(db.articles, UpdateDb(db, niche, id, e, true, hash).0.articles)
  {
  }

  lemma CommittedPublication(db: Db, s: Save)
    requires RowOk(s) && MayCommit(db, s)
    ensures PublicationsKept(db.articles, ExtendDb(db, s.id, s.version, s.row).articles)
  {
  }

  lemma OtherPublications(w: World, e: Event, hash: string -> string)
    requires !e.Commit? && !e.Touched?
    ensures PublicationsKept(w.db.articles, Step(w, e, hash).db.articles)
  {
    if e.Moved? { MovedPublication(w.db, e.niche, e.id, e.action, e.actor, e.now); }
  }

  lemma MovedPublication(db: Db, niche: Id, id: Id, action: Action, actor: string, now: int)
    ensures PublicationsKept(db.articles, TransitionDb(db, niche, id, action, actor, now).0.articles)
  {
  }

  lemma StepKeepsPublications(w: World, e: Event, hash: string -> string)
    requires WorldOk(w, hash)
    ensures PublicationsKept(w.db.articles, Step(w, e, hash).db.articles)
  {
    if e.Touched? {
      EditedPublication(w.db, e.niche, e.id, e.edit, hash);
    } else if e.Commit? {
      if e.save in w.saves && MayCommit(w.db, w.saves[e.save]) {
        assert SaveOk(w.db, w.saves[e.save], hash);
        CommittedPublication(w.db, w.saves[e.save]);
      }
    } else {
      OtherPublications(w, e, hash);
    }
  }

  /** Through any run, unpublishing, restoring and republishing included, the first publication's time and author stay. */
  lemma {:induction false} FirstPublicationStays(w: World, es: seq<Event>, hash: string -> string)
    requires WorldOk(w, hash)
    ensures PublicationsKept(w.db.articles, Run(w, es, hash).db.articles)
    decreases |es|
  {
    if es != [] {
      var w' := Step(w, es[0], hash);
      StepKeepsPublications(w, es[0], hash);
      StepKeepsWorld(w, es[0], hash);
      FirstPublicationStays(w', es[1..], hash);
      PublicationsChain(w.db.articles, w'.db.articles, Run(w', es[1..], hash).db.articles);
    }
  }

  lemma PublicationsChain(a: map<Id, Article>, b: map<Id, Article>, c: map<Id, Article>)
    requires PublicationsKept(a, b) && PublicationsKept(b, c)
    ensures PublicationsKept(a, c)
  {
  }
}
