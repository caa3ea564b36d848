/** Runs of overlapping saves that break the version ledger and the published snapshot. */
module ContentWitnesses {
  import opened Prelude
  import opened Content
  import opened ContentSafety
  import opened ContentProtocol
  import opened ContentFit
  import opened ContentSnapshot

  /** Two edits of one article that have both read the same state. */
  ghost predicate TwoEdits(w: World, s: SaveId, t: SaveId, niche: Id, id: Id, e: Edit, f: Edit) {
    s != t && s !in w.saves && t !in w.saves && EditSaves(w.db, niche, id, e) && EditSaves(w.db, niche, id, f)
  }

  lemma BothRead(w: World, s: SaveId, t: SaveId, niche: Id, id: Id, e: Edit, f: Edit, hash: string -> string)
    requires TwoEdits(w, s, t, niche, id, e, f)
    ensures
      Step(Step(w, BeginEdit(s, niche, id, e), hash), BeginEdit(t, niche, id, f), hash) ==
      World(w.db, w.saves[s := EditSave(w.db, id, e, hash)][t := EditSave(w.db, id, f, hash)])
  {
  }

  lemma Commits(w: World, s: SaveId, hash: string -> string)
    requires s in w.saves && MayCommit(w.db, w.saves[s])
    ensures Step(w, Commit(s), hash).db == ExtendDb(w.db, w.saves[s].id, w.saves[s].version, w.saves[s].row)
    ensures VersionsOf(Step(w, Commit(s), hash).db, w.saves[s].id) == VersionsOf(w.db, w.saves[s].id) + [w.saves[s].version]
  {
  }

  /** A number that another save has committed is taken. */
  lemma TakenIsRefused(db: Db, s: Save, vs: seq<Version>, v: Version)
    requires VersionsOf(db, s.id) == vs + [v] && s.version.number == v.number
    ensures !MayCommit(db, s)
  {
    assert (vs + [v])[..|vs|] == vs;
  }

  // ---------------------------------------------------------------- both put before one commits

  /** Both have put under the same key, the second one last. */
  lemma BothPut(w: World, s: SaveId, t: SaveId, niche: Id, id: Id, e: Edit, f: Edit, hash: string -> string)
    returns (w4: World)
    requires TwoEdits(w, s, t, niche, id, e, f)
    ensures
      var w2 := Step(Step(w, BeginEdit(s, niche, id, e), hash), BeginEdit(t, niche, id, f), hash);
      w4 == Step(Step(w2, Place(s), hash), Place(t), hash)
    ensures
      var (a, b) := (EditSave(w.db, id, e, hash), EditSave(w.db, id, f, hash));
      && s in w4.saves && t in w4.saves && w4.saves[s] == a.(placed := true) && w4.saves[t] == b.(placed := true)
      && a.version.ref == b.version.ref && a.version.number == b.version.number
      && w4.db == w.db.(blobs := w.db.blobs[a.version.ref := a.body][a.version.ref := b.body])
  {
    var a, b := EditSave(w.db, id, e, hash), EditSave(w.db, id, f, hash);
    BothRead(w, s, t, niche, id, e, f, hash);
    var w3 := Step(World(w.db, w.saves[s := a][t := b]), Place(s), hash);
    assert w3.saves[t] == b && w3.db == PlaceDb(w.db, a.version.ref, a.body);
    w4 := Step(w3, Place(t), hash);
  }

  /**
   Two saves read the same number; one puts its blob, then the other puts its own under the same key; the first
   commits, the other is refused. The committed version's blob is the other's.
   */
  lemma RacingSavesMisfit(w: World, s: SaveId, t: SaveId, niche: Id, id: Id, e: Edit, f: Edit, hash: string -> string)
    requires WorldOk(w, hash) && TwoEdits(w, s, t, niche, id, e, f)
    requires hash(EditSave(w.db, id, e, hash).body) != hash(EditSave(w.db, id, f, hash).body)
    ensures
      var w2 := Step(Step(w, BeginEdit(s, niche, id, e), hash), BeginEdit(t, niche, id, f), hash);
      var w5 := Step(Step(Step(w2, Place(s), hash), Place(t), hash), Commit(s), hash);
      var v := EditSave(w.db, id, e, hash).version;
      && VersionsOf(w5.db, id) == VersionsOf(w.db, id) + [v]
      && !Fits(v, w5.db.blobs, hash)
      && Step(w5, Commit(t), hash).db == w5.db
  {
    var a, b := EditSave(w.db, id, e, hash), EditSave(w.db, id, f, hash);
    var w4 := BothPut(w, s, t, niche, id, e, f, hash);
    assert w4.db.blobs[a.version.ref] == b.body && VersionsOf(w4.db, id) == VersionsOf(w.db, id);
    EditMayCommit(w.db, w4.db, niche, id, e, hash);
    Commits(w4, s, hash);
    TakenIsRefused(Step(w4, Commit(s), hash).db, w4.saves[t], VersionsOf(w.db, id), a.version);
  }

  // ---------------------------------------------------------------- one commits before the other puts

  lemma PutAlone(w: World, s: SaveId, a: Save, hash: string -> string) returns (w': World)
    requires s in w.saves && w.saves[s] == a && !a.placed
    ensures w' == Step(w, Place(s), hash) && w'.saves == w.saves[s := a.(placed := true)]
    ensures w'.db == PlaceDb(w.db, a.version.ref, a.body) && VersionsOf(w'.db, a.id) == VersionsOf(w.db, a.id)
  {
    w' := Step(w, Place(s), hash);
  }

  lemma Overtaking(w: World, s: SaveId, t: SaveId, niche: Id, id: Id, e: Edit, f: Edit, hash: string -> string)
    returns (w4: World)
    requires WorldOk(w, hash) && TwoEdits(w, s, t, niche, id, e, f) && !w.db.articles[id].status.Published?
    ensures
      var w2 := Step(Step(w, BeginEdit(s, niche, id, e), hash), BeginEdit(t, niche, id, f), hash);
      w4 == Step(Step(w2, Place(s), hash), Commit(s), hash)
    ensures
      var (a, b) := (EditSave(w.db, id, e, hash), EditSave(w.db, id, f, hash));
      && id in w4.db.articles && w4.db.articles[id] == a.row && VersionsOf(w4.db, id) == VersionsOf(w.db, id) + [a.version]
      && BodyAt(w4.db, Some(a.version.ref)) == Some(a.body)
      && t in w4.saves && w4.saves[t] == b && b.version.ref == a.version.ref
  {
    var a, b := EditSave(w.db, id, e, hash), EditSave(w.db, id, f, hash);
    BothRead(w, s, t, niche, id, e, f, hash);
    var w3 := PutAlone(World(w.db, w.saves[s := a][t := b]), s, a, hash);
    EditMayCommit(w.db, w3.db, niche, id, e, hash);
    Commits(w3, s, hash);
    w4 := Step(w3, Commit(s), hash);
  }

  lemma LatestOf(vs: seq<Version>, v: Version)
    requires forall k :: 0 <= k < |vs| ==> vs[k].number == k + 1
    requires v.number == |vs| + 1
    ensures Latest(vs + [v]) == v
  {
    NumbersGiveNext(vs + [v]);
  }

  lemma NextIsLatest(db: Db, id: Id, v: Version)
    requires Shaped(db) && id in db.articles && v.number == NextNumber(VersionsOf(db, id))
    ensures Latest(VersionsOf(db, id) + [v]) == v
  {
    var vs := VersionsOf(db, id);
    assert EntryOk(db, id);
    NextIsLength(db, id);
    forall k | 0 <= k < |vs| ensures vs[k].number == k + 1 { assert VersionAt(vs[k], id, k); }
    LatestOf(vs, v);
  }

  /** The overtaking save's version is the latest, so publishing shows it. */
  lemma OvertakerIsShown(w: World, w4: World, a: Save, niche: Id, id: Id, actor: string, now: int, hash: string -> string)
    requires Shaped(w.db) && Visible(w4.db, niche, id)
    requires Editable(w4.db.articles[id].status) && HasContent(w4.db.articles[id])
    requires VersionsOf(w4.db, id) == VersionsOf(w.db, id) + [a.version] && id in w.db.articles
    requires a.version.number == NextNumber(VersionsOf(w.db, id)) && BodyAt(w4.db, Some(a.version.ref)) == Some(a.body)
    ensures
      var db' := TransitionDb(w4.db, niche, id, Publish, actor, now).0;
      && db'.blobs == w4.db.blobs && id in db'.articles && db'.articles[id].ref == Some(a.version.ref)
      && ViewOf(db', id).Some? && ViewOf(db', id).value.body == a.body
      && ViewOf(db', id).value.checksum == Some(a.version.checksum)
  {
    assert Latest(VersionsOf(w.db, id) + [a.version]) == a.version by { NextIsLatest(w.db, id, a.version); }
    PublishShows(w4.db, niche, id, a, actor, now);
  }

  /**
   One save commits and its version is published; another, which had read the same number, then puts its own blob.
   Readers get the other's body under the checksum of the first, whether or not the other goes on to fail.
   */
  lemma OvertakenSaveRewritesPublished(w: World, s: SaveId, t: SaveId, niche: Id, id: Id, e: Edit, f: Edit,
                                       actor: string, now: int, hash: string -> string) returns (v: View)
    requires WorldOk(w, hash) && TwoEdits(w, s, t, niche, id, e, f) && !w.db.articles[id].status.Published?
    requires hash(EditSave(w.db, id, e, hash).body) != ""
    ensures v.body == EditSave(w.db, id, e, hash).body && v.checksum == Some(hash(v.body))
    ensures
      var w2 := Step(Step(w, BeginEdit(s, niche, id, e), hash), BeginEdit(t, niche, id, f), hash);
      var w5 := Step(Step(Step(w2, Place(s), hash), Commit(s), hash), Moved(niche, id, Publish, actor, now), hash);
      && ViewOf(w5.db, id) == Some(v)
      && ViewOf(Step(w5, Place(t), hash).db, id) == Some(v.(body := EditSave(w.db, id, f, hash).body))
  {
    var a, b := EditSave(w.db, id, e, hash), EditSave(w.db, id, f, hash);
    var w4 := Overtaking(w, s, t, niche, id, e, f, hash);
    OvertakerIsShown(w, w4, a, niche, id, actor, now, hash);
    v := ShownThenReplaced(w4, t, niche, id, a, b, actor, now, hash);
  }

  lemma ShownThenReplaced(w4: World, t: SaveId, niche: Id, id: Id, a: Save, b: Save, actor: string, now: int,
                          hash: string -> string) returns (v: View)
    requires t in w4.saves && w4.saves[t] == b && !b.placed && b.version.ref == a.version.ref
    requires
      var db' := TransitionDb(w4.db, niche, id, Publish, actor, now).0;
      id in db'.articles && db'.articles[id].ref == Some(a.version.ref) && ViewOf(db', id).Some?
    ensures
      var w5 := Step(w4, Moved(niche, id, Publish, actor, now), hash);
      && w5.db == TransitionDb(w4.db, niche, id, Publish, actor, now).0 && ViewOf(w5.db, id) == Some(v)
      && ViewOf(Step(w5, Place(t), hash).db, id) == Some(v.(body := b.body))
  {
    var w5 := Step(w4, Moved(niche, id, Publish, actor, now), hash);
    v := ViewOf(w5.db, id).value;
    PlacedOver(w5, t, id, b, hash);
  }

  lemma PlacedOver(w: World, t: SaveId, id: Id, b: Save, hash: string -> string)
    requires t in w.saves && w.saves[t] == b && !b.placed && ViewOf(w.db, id).Some?
    requires w.db.articles[id].ref == Some(b.version.ref)
    ensures ViewOf(Step(w, Place(t), hash).db, id) == Some(ViewOf(w.db, id).value.(body := b.body))
  {
  }

  lemma PublishShows(db: Db, niche: Id, id: Id, a: Save, actor: string, now: int)
    requires Visible(db, niche, id) && Target(db.articles[id].status, Publish).Some? && HasContent(db.articles[id])
    requires VersionsOf(db, id) != [] && Latest(VersionsOf(db, id)) == a.version
    requires BodyAt(db, Some(a.version.ref)) == Some(a.body)
    ensures
      var db' := TransitionDb(db, niche, id, Publish, actor, now).0;
      && db'.blobs == db.blobs && id in db'.articles && db'.articles[id].ref == Some(a.version.ref)
      && ViewOf(db', id).Some? && ViewOf(db', id).value.body == a.body
      && ViewOf(db', id).value.checksum == Some(a.version.checksum)
  {
  }

  // ---------------------------------------------------------------- both happen from an empty store

  const CREATE := BeginCreate(0, 0, NewArticle(0, "t", "", "a", Some("t"), true, None), "t")
  const QUICK := Edit(None, None, Some("b"), None, None, "ed")
  const SLOW := Edit(None, None, Some("c"), None, None, "ed")

  function Drafted(hash: string -> string): World {
    Step(Step(Step(EMPTY, CREATE, hash), Place(0), hash), Commit(0), hash)
  }

  /** The first article of an empty store. */
  lemma DraftedIs(hash: string -> string)
    ensures
      var db := Drafted(hash).db;
      && Drafted(hash).saves == map[] && db.articles.Keys == {0}
      && db.articles[0] == NewRow(CREATE.article, "t", Version(1, "t", "", Ref(0, 1), hash("a")))
      && BodyAt(db, Some(Ref(0, 1))) == Some("a")
  {
    UndisturbedCreate(EMPTY, 0, 0, CREATE.article, "t", hash);
    assert VersionsOf(EMPTY.db, 0) == [] && NextNumber([]) == 1;
  }

  lemma DraftedOk(hash: string -> string)
    ensures WorldOk(Drafted(hash), hash)
  {
    StepKeepsWorld(EMPTY, CREATE, hash);
    StepKeepsWorld(Step(EMPTY, CREATE, hash), Place(0), hash);
    StepKeepsWorld(Step(Step(EMPTY, CREATE, hash), Place(0), hash), Commit(0), hash);
  }

  /** From an empty store both runs above can follow: its first article takes two edits at once. */
  lemma DraftedTakesTwoEdits(hash: string -> string)
    ensures WorldOk(Drafted(hash), hash) && TwoEdits(Drafted(hash), 1, 2, 0, 0, QUICK, SLOW)
    ensures !Drafted(hash).db.articles[0].status.Published?
    ensures EditSave(Drafted(hash).db, 0, QUICK, hash).body == "b" && EditSave(Drafted(hash).db, 0, SLOW, hash).body == "c"
  {
    DraftedOk(hash);
    DraftedIs(hash);
  }
}
