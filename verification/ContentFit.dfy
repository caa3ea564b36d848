/** When the blob of a version has the version's checksum: the exact condition over every run of overlapping saves. */
module ContentFit {
  import opened Prelude
  import opened Content
  import opened ContentSafety
  import opened ContentProtocol

  // ---------------------------------------------------------------- step by step

  /**
   What a caller can check before a step: no blob goes under a committed version's key with another checksum, and no
   version is committed whose blob has been replaced by one with another checksum.
   */
  predicate Harmless(w: World, e: Event, hash: string -> string) {
    match e
    case Place(s) =>
      s in w.saves && !w.saves[s].placed && Committed(w.db, w.saves[s].version.ref) ==>
        hash(w.saves[s].body) == VersionUnder(w.db, w.saves[s].version.ref).checksum
    case Commit(s) =>
      s in w.saves && MayCommit(w.db, w.saves[s]) ==> Fits(w.saves[s].version, w.db.blobs, hash)
    case _ => true
  }

  lemma PlaceFitsExactly(db: Db, ref: Ref, body: string, hash: string -> string)
    requires Sound(db, hash)
    ensures AllFit(PlaceDb(db, ref, body), hash) <==>
            (Committed(db, ref) ==> hash(body) == VersionUnder(db, ref).checksum)
  {
    if Committed(db, ref) && hash(body) != VersionUnder(db, ref).checksum {
      HarmfulPlace(db, ref, body, hash);
    } else {
      HarmlessPlace(db, ref, body, hash);
    }
  }

  /** The rows that other steps write change no version and no blob. */
  lemma OthersKeepFit(w: World, e: Event, hash: string -> string)
    requires !e.Place? && !e.Commit? && AllFit(w.db, hash)
    ensures AllFit(Step(w, e, hash).db, hash)
  {
    OthersKeepVersions(w, e, hash);
    RowsKeepFit(w.db, Step(w, e, hash).db, hash);
  }

  lemma OthersKeepVersions(w: World, e: Event, hash: string -> string)
    requires !e.Place? && !e.Commit?
    ensures
      var (db, db') := (w.db, Step(w, e, hash).db);
      db'.articles.Keys == db.articles.Keys && db'.versions == db.versions && db'.blobs == db.blobs
  {
  }

  /** While all blobs fit, a step keeps them fitting exactly when it is harmless. */
  lemma StepFitsExactly(w: World, e: Event, hash: string -> string)
    requires WorldOk(w, hash) && AllFit(w.db, hash)
    ensures AllFit(Step(w, e, hash).db, hash) <==> Harmless(w, e, hash)
  {
    match e
    case Place(s) =>
      if s in w.saves && !w.saves[s].placed { PlaceFitsExactly(w.db, w.saves[s].version.ref, w.saves[s].body, hash); }
    case Commit(s) =>
      if s in w.saves && MayCommit(w.db, w.saves[s]) {
        ExtendFits(w.db, w.saves[s].id, w.saves[s].version, w.saves[s].row, hash);
      }
    case _ => OthersKeepFit(w, e, hash);
  }

  predicate AllHarmless(w: World, es: seq<Event>, hash: string -> string)
    decreases |es|
  {
    es == [] || (Harmless(w, es[0], hash) && AllHarmless(Step(w, es[0], hash), es[1..], hash))
  }

  ghost predicate AlwaysFit(w: World, es: seq<Event>, hash: string -> string)
    decreases |es|
  {
    AllFit(w.db, hash) && (es == [] || AlwaysFit(Step(w, es[0], hash), es[1..], hash))
  }

  lemma {:induction false} RunFitsFrom(w: World, es: seq<Event>, hash: string -> string)
    requires WorldOk(w, hash) && AllFit(w.db, hash)
    ensures AlwaysFit(w, es, hash) <==> AllHarmless(w, es, hash)
    decreases |es|
  {
    if es != [] {
      StepFitsExactly(w, es[0], hash);
      StepKeepsWorld(w, es[0], hash);
      if Harmless(w, es[0], hash) { RunFitsFrom(Step(w, es[0], hash), es[1..], hash); }
    }
  }

  lemma {:induction false} AlwaysFitAtEnd(w: World, es: seq<Event>, hash: string -> string)
    requires AlwaysFit(w, es, hash)
    ensures AllFit(Run(w, es, hash).db, hash)
    decreases |es|
  {
    if es != [] { AlwaysFitAtEnd(Step(w, es[0], hash), es[1..], hash); }
  }

  /** Throughout a run every committed version fits its blob, exactly when every step of the run is harmless. */
  lemma VersionLedger(es: seq<Event>, hash: string -> string)
    ensures AlwaysFit(EMPTY, es, hash) <==> AllHarmless(EMPTY, es, hash)
    ensures AllHarmless(EMPTY, es, hash) ==>
              forall id, k :: id in Run(EMPTY, es, hash).db.articles && 0 <= k < |VersionsOf(Run(EMPTY, es, hash).db, id)| ==>
                Fits(VersionsOf(Run(EMPTY, es, hash).db, id)[k], Run(EMPTY, es, hash).db.blobs, hash)
  {
    RunFitsFrom(EMPTY, es, hash);
    if AllHarmless(EMPTY, es, hash) {
      AlwaysFitAtEnd(EMPTY, es, hash);
      var db := Run(EMPTY, es, hash).db;
      forall id, k | id in db.articles && 0 <= k < |VersionsOf(db, id)|
        ensures Fits(VersionsOf(db, id)[k], db.blobs, hash)
      {
        assert LedgerFits(VersionsOf(db, id), db.blobs, hash);
      }
    }
  }

  // ---------------------------------------------------------------- one version and the puts under its key

  predicate PutsUnder(w: World, e: Event, ref: Ref) {
    e.Place? && e.save in w.saves && !w.saves[e.save].placed && w.saves[e.save].version.ref == ref
  }

  /** The body that a run puts last under a key. */
  function LastPut(w: World, es: seq<Event>, ref: Ref, hash: string -> string): Option<string>
    decreases |es|
  {
    if es == [] then None
    else
      var later := LastPut(Step(w, es[0], hash), es[1..], ref, hash);
      if later.Some? then later
      else if PutsUnder(w, es[0], ref) then Some(w.saves[es[0].save].body)
      else None
  }

  lemma StepBlob(w: World, e: Event, ref: Ref, hash: string -> string)
    ensures
      BodyAt(Step(w, e, hash).db, Some(ref)) ==
      if PutsUnder(w, e, ref) then Some(w.saves[e.save].body) else BodyAt(w.db, Some(ref))
  {
  }

  /** Blobs are what was put last. */
  lemma {:induction false} BlobIsLastPut(w: World, es: seq<Event>, ref: Ref, hash: string -> string)
    ensures
      BodyAt(Run(w, es, hash).db, Some(ref)) ==
      if LastPut(w, es, ref, hash).Some? then LastPut(w, es, ref, hash) else BodyAt(w.db, Some(ref))
    decreases |es|
  {
    if es != [] {
      StepBlob(w, es[0], ref, hash);
      BlobIsLastPut(Step(w, es[0], hash), es[1..], ref, hash);
    }
  }

  /**
   A version fits its blob exactly when, after its own save put it, no other save put a body with another checksum
   under the same key, or one with the right checksum came last: whether before the commit or after it.
   */
  lemma VersionFitsExactly(w: World, es: seq<Event>, s: SaveId, hash: string -> string)
    requires WorldOk(w, hash) && s in w.saves && !w.saves[s].placed
    requires
      var end := Run(Step(w, Place(s), hash), es, hash).db;
      Committed(end, w.saves[s].version.ref) && VersionUnder(end, w.saves[s].version.ref) == w.saves[s].version
    ensures
      var put := Step(w, Place(s), hash);
      var v := w.saves[s].version;
      var last := LastPut(put, es, v.ref, hash);
      Fits(v, Run(put, es, hash).db.blobs, hash) <==> (last.Some? ==> hash(last.value) == v.checksum)
  {
    var put := Step(w, Place(s), hash);
    BlobIsLastPut(put, es, w.saves[s].version.ref, hash);
    assert SaveOk(w.db, w.saves[s], hash);
    assert BodyAt(put.db, Some(w.saves[s].version.ref)) == Some(w.saves[s].body);
  }

  // ---------------------------------------------------------------- saves that do not overlap

  /** A save of an article begins only when no other save of it is under way. */
  predicate BeginsAlone(w: World, e: Event) {
    e.BeginCreate? || e.BeginEdit? ==> forall s :: s in w.saves ==> w.saves[s].id != e.id
  }

  predicate SerialRun(w: World, es: seq<Event>, hash: string -> string)
    decreases |es|
  {
    es == [] || (BeginsAlone(w, es[0]) && SerialRun(Step(w, es[0], hash), es[1..], hash))
  }

  /** One save an article, its number not taken, its blob its own. */
  ghost predicate Serial(w: World) {
    && (forall s, t :: s in w.saves && t in w.saves && w.saves[s].id == w.saves[t].id ==> s == t)
    && (forall s :: s in w.saves ==> OwnPlace(w.db, w.saves[s]))
  }

  predicate OwnPlace(db: Db, s: Save) {
    && s.version.number == NextNumber(VersionsOf(db, s.id))
    && (s.placed ==> BodyAt(db, Some(s.version.ref)) == Some(s.body))
  }

  lemma SerialIsHarmless(w: World, e: Event, hash: string -> string)
    requires WorldOk(w, hash) && Serial(w)
    ensures Harmless(w, e, hash)
    ensures e.Place? && e.save in w.saves ==> !Committed(w.db, w.saves[e.save].version.ref)
  {
    if (e.Place? || e.Commit?) && e.save in w.saves {
      var s := w.saves[e.save];
      assert SaveOk(w.db, s, hash) && OwnPlace(w.db, s);
      NextIsLength(w.db, s.id);
    }
  }

  lemma OtherVersionsStay(w: World, e: Event, hash: string -> string, id: Id)
    requires e.Commit? && e.save in w.saves ==> w.saves[e.save].id != id
    ensures VersionsOf(Step(w, e, hash).db, id) == VersionsOf(w.db, id)
  {
  }

  lemma OtherSaveStays(w: World, e: Event, hash: string -> string, s: SaveId)
    requires WorldOk(w, hash) && Serial(w) && s in w.saves && s in Step(w, e, hash).saves
    requires e.Place? || e.Commit? ==> e.save != s
    ensures Step(w, e, hash).saves[s] == w.saves[s] && OwnPlace(Step(w, e, hash).db, w.saves[s])
  {
    var save := w.saves[s];
    assert OwnPlace(w.db, save) && SaveOk(w.db, save, hash);
    if (e.Place? || e.Commit?) && e.save in w.saves {
      assert w.saves[e.save].id != save.id && SaveOk(w.db, w.saves[e.save], hash);
    }
    OtherVersionsStay(w, e, hash, save.id);
    StepBlob(w, e, save.version.ref, hash);
  }

  lemma OwnPlaceKept(w: World, e: Event, hash: string -> string, s: SaveId)
    requires WorldOk(w, hash) && Serial(w) && s in Step(w, e, hash).saves
    ensures OwnPlace(Step(w, e, hash).db, Step(w, e, hash).saves[s])
  {
    if s in w.saves {
      if e.Place? && e.save == s {
        assert OwnPlace(w.db, w.saves[s]);
        StepBlob(w, e, w.saves[s].version.ref, hash);
      } else {
        OtherSaveStays(w, e, hash, s);
      }
    }
  }

  lemma SavesKeepArticle(w: World, e: Event, hash: string -> string, s: SaveId)
    requires s in Step(w, e, hash).saves
    ensures s in w.saves ==> Step(w, e, hash).saves[s].id == w.saves[s].id
    ensures s !in w.saves ==> (e.BeginCreate? || e.BeginEdit?) && e.save == s && Step(w, e, hash).saves[s].id == e.id
  {
  }

  lemma StepKeepsSerial(w: World, e: Event, hash: string -> string)
    requires WorldOk(w, hash) && Serial(w) && BeginsAlone(w, e)
    ensures Serial(Step(w, e, hash))
  {
    var w' := Step(w, e, hash);
    forall s | s in w'.saves ensures OwnPlace(w'.db, w'.saves[s]) { OwnPlaceKept(w, e, hash, s); }
    forall s, t | s in w'.saves && t in w'.saves && w'.saves[s].id == w'.saves[t].id ensures s == t {
      SavesKeepArticle(w, e, hash, s);
      SavesKeepArticle(w, e, hash, t);
    }
  }

  /** When the saves of each article do not overlap, every step is harmless, failed saves included. */
  lemma {:induction false} SerialSavesAreHarmless(w: World, es: seq<Event>, hash: string -> string)
    requires WorldOk(w, hash) && Serial(w) && SerialRun(w, es, hash)
    ensures AllHarmless(w, es, hash)
    decreases |es|
  {
    if es != [] {
      SerialIsHarmless(w, es[0], hash);
      StepKeepsSerial(w, es[0], hash);
      StepKeepsWorld(w, es[0], hash);
      SerialSavesAreHarmless(Step(w, es[0], hash), es[1..], hash);
    }
  }
}
