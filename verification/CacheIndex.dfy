/** What the cache registry (cloud_offload/cache_registry.py) keeps about one volume: the
    stored manifests, the artifact table derived from them, the invalidations overlaid on it,
    and the health flag.  Every write of the registry is a function here; the invariants are
    proved of all of them and of their runs. */
module CacheIndex {
  import opened Prelude

  type Digest = string
  /** Identifiers and times of creation are numbers in the order of their text. */
  type ManifestId = nat

  /** `digest` is the text of the digest, the key of its row; `falsy` when the value is null or
      another that Python takes for false, as it does an empty text. */
  datatype Artifact =
    Artifact(digest: Digest, falsy: bool, kind: string, size: int, compatibility: string, policy: string,
             logical: Option<string>)

  /** A removal passes over artifacts whose digest is falsy. */
  predicate IsNamed(a: Artifact) {
    !a.falsy && a.digest != ""
  }

  datatype Manifest = Manifest(profile: string, created: int, artifacts: seq<Artifact>)

  datatype Entry = Entry(id: ManifestId, manifest: Manifest)

  datatype Eligibility = Eligible | Invalidated | Unknown

  datatype Row = Row(artifact: Artifact, manifest: ManifestId, eligibility: Eligibility)

  datatype Status = Ready | Degraded | Other

  datatype Shelf = Shelf(
    manifests: map<ManifestId, Manifest>, rows: map<Digest, Row>, invalid: set<Digest>,
    status: Status, generation: string)

  function Listed(m: Manifest): set<Digest> {
    set a <- m.artifacts :: a.digest
  }

  function AllListed(manifests: map<ManifestId, Manifest>): set<Digest> {
    set m <- manifests, d <- Listed(manifests[m]) :: d
  }

  function NamedIn(artifacts: seq<Artifact>): set<Digest> {
    set a <- artifacts | IsNamed(a) :: a.digest
  }

  function Named(m: Manifest): set<Digest> {
    NamedIn(m.artifacts)
  }

  function AllNamed(manifests: map<ManifestId, Manifest>): set<Digest> {
    set m <- manifests, d <- Named(manifests[m]) :: d
  }

  /******* Writes *******/

  function FreshRow(invalid: set<Digest>, id: ManifestId, a: Artifact): Row {
    Row(a, id, if a.digest in invalid then Invalidated else Eligible)
  }

  /** Upserts the rows of a manifest's artifacts, in order. */
  function PutArtifacts(rows: map<Digest, Row>, invalid: set<Digest>, id: ManifestId,
                        artifacts: seq<Artifact>): map<Digest, Row> {
    if artifacts == [] then rows
    else
      var a := artifacts[|artifacts| - 1];
      PutArtifacts(rows, invalid, id, artifacts[..|artifacts| - 1])[a.digest := FreshRow(invalid, id, a)]
  }

  /** The document stored for an entry of the index. */
  function Document(e: Entry, documents: map<ManifestId, Manifest>): Manifest {
    if e.id in documents then e.manifest.(artifacts := documents[e.id].artifacts) else e.manifest
  }

  function PutEntries(s: Shelf, entries: seq<Entry>, documents: map<ManifestId, Manifest>): Shelf {
    if entries == [] then s
    else
      var before, e := PutEntries(s, entries[..|entries| - 1], documents), entries[|entries| - 1];
      before.(manifests := before.manifests[e.id := Document(e, documents)],
              rows := PutArtifacts(before.rows, s.invalid, e.id, e.manifest.artifacts))
  }

  function SeenIn(entries: seq<Entry>): set<Digest> {
    set e <- entries, d <- Listed(e.manifest) :: d
  }

  function Drifted(rows: map<Digest, Row>, seen: set<Digest>): map<Digest, Row> {
    map d | d in rows :: if d in seen then rows[d] else rows[d].(eligibility := Unknown)
  }

  /** `reconcile_index` */
  function Reconciled(s: Shelf, entries: seq<Entry>, documents: map<ManifestId, Manifest>, generation: string): Shelf {
    var put := PutEntries(s, entries, documents);
    var seen := SeenIn(entries);
    put.(rows := Drifted(put.rows, seen), generation := generation,
         status := if !(put.rows.Keys <= seen) || s.invalid != {} then Degraded else Ready)
  }

  predicate Newer(m: ManifestId, a: Manifest, n: ManifestId, b: Manifest) {
    a.created > b.created || (a.created == b.created && m > n)
  }

  /** The newest stored manifest that names the digest. */
  predicate IsNewest(manifests: map<ManifestId, Manifest>, d: Digest, m: ManifestId) {
    && m in manifests && d in Named(manifests[m])
    && forall n <- manifests | d in Named(manifests[n]) && n != m :: Newer(m, manifests[m], n, manifests[n])
  }

  function First(artifacts: seq<Artifact>, d: Digest): Artifact
    requires exists a <- artifacts :: IsNamed(a) && a.digest == d
  {
    if IsNamed(artifacts[0]) && artifacts[0].digest == d then artifacts[0] else First(artifacts[1..], d)
  }

  ghost function Newest(manifests: map<ManifestId, Manifest>, d: Digest): ManifestId
    requires d in AllNamed(manifests)
  {
    NewestExists(manifests, d);
    var m :| IsNewest(manifests, d, m);
    m
  }

  lemma {:induction false} NewestExists(manifests: map<ManifestId, Manifest>, d: Digest)
    requires d in AllNamed(manifests)
    ensures exists m :: IsNewest(manifests, d, m)
    decreases manifests.Keys
  {
    var m :| m in manifests && d in Named(manifests[m]);
    var rest := manifests - {m};
    assert forall n <- manifests | n != m :: n in rest && rest[n] == manifests[n];
    if d in AllNamed(rest) {
      NewestExists(rest, d);
      var n :| IsNewest(rest, d, n);
      assert rest[n] == manifests[n];
      if Newer(m, manifests[m], n, manifests[n]) {
        assert IsNewest(manifests, d, m);
      } else {
        assert IsNewest(manifests, d, n);
      }
    } else {
      assert IsNewest(manifests, d, m);
    }
  }

  /** The row of a digest that survives the removal of one of its manifests. */
  ghost function Repointed(manifests: map<ManifestId, Manifest>, invalid: set<Digest>, d: Digest): Row
    requires d in AllNamed(manifests)
  {
    var m := Newest(manifests, d);
    assert IsNewest(manifests, d, m);
    FreshRow(invalid, m, First(manifests[m].artifacts, d))
  }

  /** `_refresh_volume_health` */
  function Health(rows: map<Digest, Row>, invalid: set<Digest>): Status {
    if invalid != {} || exists d <- rows :: rows[d].eligibility != Eligible then Degraded else Ready
  }

  /** `remove_manifest` */
  ghost function Removed(s: Shelf, id: ManifestId, generation: Option<string>): Shelf {
    var s1 := if generation.Some? then s.(generation := generation.value) else s;
    if id !in s.manifests then s1
    else
      var left := s.manifests - {id};
      var touched := Named(s.manifests[id]);
      var gone := touched - AllNamed(left);
      var rows := map d | d in s.rows && d !in gone ::
                    if d in touched then Repointed(left, s.invalid, d) else s.rows[d];
      s1.(manifests := left, rows := rows, invalid := s.invalid - gone, status := Health(rows, s.invalid - gone))
  }

  function Marked(rows: map<Digest, Row>, d: Digest, e: Eligibility): map<Digest, Row> {
    if d in rows then rows[d := rows[d].(eligibility := e)] else rows
  }

  /** `invalidate`, and an observation of corruption */
  function AsInvalidated(s: Shelf, d: Digest): Shelf {
    s.(invalid := s.invalid + {d}, rows := Marked(s.rows, d, Invalidated), status := Degraded)
  }

  /** `mark_verified`, and an observation of a hit with full digest verification */
  function AsVerified(s: Shelf, d: Digest): Shelf {
    var rows := Marked(s.rows, d, Eligible);
    s.(invalid := s.invalid - {d}, rows := rows, status := Health(rows, s.invalid - {d}))
  }

  /******* Invariants *******/

  /** The table is the index of the stored manifests: it has exactly their digests, and each
      row was made from an artifact of a stored manifest. */
  ghost predicate Indexed(s: Shelf) {
    && (forall d <- s.rows ::
          && s.rows[d].manifest in s.manifests && s.rows[d].artifact in s.manifests[s.rows[d].manifest].artifacts
          && s.rows[d].artifact.digest == d)
    && s.rows.Keys == AllListed(s.manifests)
  }

  /** An invalidated digest is never eligible, and only such a digest is marked invalidated. */
  ghost predicate Guarded(s: Shelf) {
    forall d <- s.rows ::
      && (d in s.invalid ==> s.rows[d].eligibility != Eligible)
      && (s.rows[d].eligibility == Invalidated ==> d in s.invalid)
  }

  ghost predicate Healthy(s: Shelf) {
    s.status == Health(s.rows, s.invalid)
  }

  /******* Reconciliation *******/

  /** One manifest identifier always names the same artifacts. */
  ghost predicate Catalogued(s: Shelf, entries: seq<Entry>, documents: map<ManifestId, Manifest>) {
    && (forall e <- entries :: Document(e, documents).artifacts == e.manifest.artifacts)
    && (forall e <- entries | e.id in s.manifests :: s.manifests[e.id].artifacts == e.manifest.artifacts)
    && (forall e, f | e in entries && f in entries && e.id == f.id :: e.manifest.artifacts == f.manifest.artifacts)
  }

  lemma {:induction false} PutArtifactsLaw(rows: map<Digest, Row>, invalid: set<Digest>, id: ManifestId,
                        artifacts: seq<Artifact>, d: Digest)
    ensures var put := PutArtifacts(rows, invalid, id, artifacts);
            var listed := exists a <- artifacts :: a.digest == d;
            && (d in put <==> d in rows || listed)
            && (!listed && d in rows ==> put[d] == rows[d])
            && (listed ==> && put[d].artifact in artifacts && put[d].artifact.digest == d
                           && put[d] == FreshRow(invalid, id, put[d].artifact))
  {
    if artifacts != [] {
      var front, a := artifacts[..|artifacts| - 1], artifacts[|artifacts| - 1];
      PutArtifactsLaw(rows, invalid, id, front, d);
      assert artifacts == front + [a];
    }
  }

  /** What the upserts of a reconciliation leave in the table. */
  lemma {:induction false} PutEntriesLaw(s: Shelf, entries: seq<Entry>, documents: map<ManifestId, Manifest>, d: Digest)
    ensures var put := PutEntries(s, entries, documents);
            && put.invalid == s.invalid && put.status == s.status && put.generation == s.generation
            && (d in put.rows <==> d in s.rows || d in SeenIn(entries))
            && (d !in SeenIn(entries) && d in s.rows ==> put.rows[d] == s.rows[d])
            && (d in SeenIn(entries) ==> MadeFrom(put.rows[d], entries, s.invalid, d))
  {
    if entries != [] {
      var front, e := entries[..|entries| - 1], entries[|entries| - 1];
      assert entries == front + [e];
      PutEntriesLaw(s, front, documents, d);
      PutArtifactsLaw(PutEntries(s, front, documents).rows, s.invalid, e.id, e.manifest.artifacts, d);
      assert SeenIn(entries) == SeenIn(front) + Listed(e.manifest);
    }
  }

  /** The row was written for an artifact of one of the entries. */
  ghost predicate MadeFrom(row: Row, entries: seq<Entry>, invalid: set<Digest>, d: Digest) {
    exists e <- entries ::
      row.artifact in e.manifest.artifacts && row.artifact.digest == d && row == FreshRow(invalid, e.id, row.artifact)
  }

  lemma {:induction false} StoredManifests(s: Shelf, entries: seq<Entry>, documents: map<ManifestId, Manifest>)
    requires Catalogued(s, entries, documents)
    ensures var put := PutEntries(s, entries, documents).manifests;
            && (forall m <- s.manifests :: m in put && put[m].artifacts == s.manifests[m].artifacts)
            && (forall e <- entries :: e.id in put && put[e.id].artifacts == e.manifest.artifacts)
            && (forall m <- put :: m in s.manifests || exists e <- entries :: e.id == m)
  {
    hide PutArtifacts, SeenIn, Listed;
    if entries != [] {
      var front, e := entries[..|entries| - 1], entries[|entries| - 1];
      assert entries == front + [e];
      assert forall f <- front :: f in entries;
      StoredManifests(s, front, documents);
      assert Document(e, documents).artifacts == e.manifest.artifacts;
    }
  }

  lemma StoredIsKnown(s: Shelf, entries: seq<Entry>, documents: map<ManifestId, Manifest>, m: ManifestId, d: Digest)
    requires Catalogued(s, entries, documents)
    requires var put := PutEntries(s, entries, documents).manifests; m in put && d in Listed(put[m])
    ensures d in AllListed(s.manifests) || d in SeenIn(entries)
  {
    StoredManifests(s, entries, documents);
    if m in s.manifests {
      assert d in Listed(s.manifests[m]);
    } else {
      var e :| e in entries && e.id == m;
      assert d in Listed(e.manifest);
    }
  }

  ghost predicate RowIsExact(s: Shelf, d: Digest) {
    && (d in s.rows <==> d in AllListed(s.manifests))
    && (d in s.rows ==>
          && s.rows[d].manifest in s.manifests && s.rows[d].artifact in s.manifests[s.rows[d].manifest].artifacts
          && s.rows[d].artifact.digest == d)
  }

  lemma UpsertedRowIsExact(s: Shelf, entries: seq<Entry>, documents: map<ManifestId, Manifest>, d: Digest)
    requires Indexed(s) && Catalogued(s, entries, documents)
    ensures RowIsExact(PutEntries(s, entries, documents), d)
  {
    hide PutEntries, PutArtifacts, Catalogued, Document;
    var put := PutEntries(s, entries, documents);
    StoredManifests(s, entries, documents);
    PutEntriesLaw(s, entries, documents, d);
    if d in AllListed(put.manifests) {
      var m :| m in put.manifests && d in Listed(put.manifests[m]);
      StoredIsKnown(s, entries, documents, m, d);
    }
    if d in SeenIn(entries) {
      var e :| e in entries && put.rows[d].artifact in e.manifest.artifacts && put.rows[d].artifact.digest == d
               && put.rows[d] == FreshRow(s.invalid, e.id, put.rows[d].artifact);
      assert d in Listed(put.manifests[e.id]);
    } else if d in s.rows {
      assert d in Listed(put.manifests[s.rows[d].manifest]);
    }
  }

  /** Reconciling with an index keeps the table exact. */
  lemma {:induction false} ReconcileKeepsIndex(s: Shelf, entries: seq<Entry>, documents: map<ManifestId, Manifest>,
                        generation: string)
    requires Indexed(s) && Catalogued(s, entries, documents)
    ensures Indexed(Reconciled(s, entries, documents, generation))
  {
    hide PutEntries, Catalogued, Listed, AllListed, SeenIn;
    var put, r := PutEntries(s, entries, documents), Reconciled(s, entries, documents, generation);
    forall d ensures RowIsExact(r, d) {
      UpsertedRowIsExact(s, entries, documents, d);
    }
    assert r.rows.Keys == AllListed(r.manifests) by {
      forall d ensures d in r.rows.Keys <==> d in AllListed(r.manifests) {
        assert RowIsExact(r, d);
      }
    }
    forall d <- r.rows ensures RowIsExact(r, d) {
    }
  }

  /** The health that a reconciliation computes on the spot is that of the general refresh, and
      no invalidated digest becomes eligible, whatever the table was before. */
  lemma {:induction false} ReconcileGuardsAndAgrees(s: Shelf, entries: seq<Entry>, documents: map<ManifestId, Manifest>,
                        generation: string)
    ensures var r := Reconciled(s, entries, documents, generation);
            && Healthy(r) && Guarded(r) && r.invalid == s.invalid
            && (forall d <- r.rows :: r.rows[d].eligibility ==
                  if d !in SeenIn(entries) then Unknown else if d in s.invalid then Invalidated else Eligible)
  {
    var put, r := PutEntries(s, entries, documents), Reconciled(s, entries, documents, generation);
    forall d
      ensures d in r.rows ==>
                r.rows[d].eligibility == (if d !in SeenIn(entries) then Unknown else if d in s.invalid then Invalidated else Eligible)
    {
      PutEntriesLaw(s, entries, documents, d);
    }
    PutEntriesLaw(s, entries, documents, "");
    if !(put.rows.Keys <= SeenIn(entries)) {
      var d :| d in put.rows && d !in SeenIn(entries);
      assert d in r.rows;
    }
  }

  /** Place `i` of the index is the last for its manifest. */
  predicate IsLastEntry(entries: seq<Entry>, i: nat, m: ManifestId) {
    && i < |entries| && entries[i].id == m
    && forall j | i < j < |entries| :: entries[j].id != m
  }

  /** Of several entries for one manifest the last is stored, with the artifacts of its document. */
  lemma {:induction false} LastEntryIsStored(s: Shelf, entries: seq<Entry>, documents: map<ManifestId, Manifest>,
                                             generation: string, i: nat, m: ManifestId)
    requires IsLastEntry(entries, i, m)
    ensures var r, stated := Reconciled(s, entries, documents, generation), entries[i].manifest;
            && r.generation == generation && m in r.manifests
            && r.manifests[m].profile == stated.profile && r.manifests[m].created == stated.created
            && r.manifests[m].artifacts == if m in documents then documents[m].artifacts else stated.artifacts
  {
    hide PutArtifacts, SeenIn, Listed, Drifted;
    var front := entries[..|entries| - 1];
    if i < |entries| - 1 {
      LastEntryIsStored(s, front, documents, generation, i, m);
    }
  }

  /** A manifest that the index does not list stays as it is. */
  lemma {:induction false} UnlistedManifestStays(s: Shelf, entries: seq<Entry>, documents: map<ManifestId, Manifest>,
                                                 generation: string, m: ManifestId)
    requires forall i | 0 <= i < |entries| :: entries[i].id != m
    ensures var r := Reconciled(s, entries, documents, generation);
            (m in r.manifests <==> m in s.manifests) && (m in s.manifests ==> r.manifests[m] == s.manifests[m])
  {
    hide PutArtifacts, SeenIn, Listed, Drifted;
    if entries != [] {
      UnlistedManifestStays(s, entries[..|entries| - 1], documents, generation, m);
    }
  }

  /** Place `j` of an entry's artifacts is the last for its digest. */
  predicate IsLastIn(artifacts: seq<Artifact>, j: nat, d: Digest) {
    && j < |artifacts| && artifacts[j].digest == d
    && forall k | j < k < |artifacts| :: artifacts[k].digest != d
  }

  lemma {:induction false} LastArtifactIsPut(rows: map<Digest, Row>, invalid: set<Digest>, id: ManifestId,
                                             artifacts: seq<Artifact>, j: nat, d: Digest)
    requires IsLastIn(artifacts, j, d)
    ensures var put := PutArtifacts(rows, invalid, id, artifacts);
            d in put && put[d] == Row(artifacts[j], id, if d in invalid then Invalidated else Eligible)
  {
    var front := artifacts[..|artifacts| - 1];
    if j < |artifacts| - 1 {
      LastArtifactIsPut(rows, invalid, id, front, j, d);
    }
  }

  /** The row of a digest is that of the last artifact with it, in the last entry that lists it. */
  lemma {:induction false} LastListingIsIndexed(s: Shelf, entries: seq<Entry>, documents: map<ManifestId, Manifest>,
                                                generation: string, i: nat, j: nat, d: Digest)
    requires i < |entries| && IsLastIn(entries[i].manifest.artifacts, j, d)
    requires forall k | i < k < |entries| :: d !in Listed(entries[k].manifest)
    ensures var r := Reconciled(s, entries, documents, generation);
            d in r.rows && r.rows[d] == Row(entries[i].manifest.artifacts[j], entries[i].id,
                                            if d in s.invalid then Invalidated else Eligible)
  {
    LastListingIsPut(s, entries, documents, i, j, d);
    assert entries[i].manifest.artifacts[j] in entries[i].manifest.artifacts;
    assert d in Listed(entries[i].manifest) && entries[i] in entries;
    assert d in SeenIn(entries);
  }

  lemma {:induction false} LastListingIsPut(s: Shelf, entries: seq<Entry>, documents: map<ManifestId, Manifest>, i: nat,
                                            j: nat, d: Digest)
    requires i < |entries| && IsLastIn(entries[i].manifest.artifacts, j, d)
    requires forall k | i < k < |entries| :: d !in Listed(entries[k].manifest)
    ensures var put := PutEntries(s, entries, documents);
            d in put.rows && put.rows[d] == Row(entries[i].manifest.artifacts[j], entries[i].id,
                                                if d in s.invalid then Invalidated else Eligible)
  {
    var front, e := entries[..|entries| - 1], entries[|entries| - 1];
    if i == |entries| - 1 {
      LastArtifactIsPut(PutEntries(s, front, documents).rows, s.invalid, e.id, e.manifest.artifacts, j, d);
    } else {
      LastListingIsPut(s, front, documents, i, j, d);
      PutArtifactsLaw(PutEntries(s, front, documents).rows, s.invalid, e.id, e.manifest.artifacts, d);
      assert d !in Listed(e.manifest);
    }
  }

  /** A row that no entry lists stays, marked as unknown. */
  lemma UnseenRowIsUnknown(s: Shelf, entries: seq<Entry>, documents: map<ManifestId, Manifest>, generation: string,
                        d: Digest)
    requires d !in SeenIn(entries)
    ensures var r := Reconciled(s, entries, documents, generation);
            && (d in r.rows <==> d in s.rows) && (d in r.rows ==> r.rows[d] == s.rows[d].(eligibility := Unknown))
  {
    PutEntriesLaw(s, entries, documents, d);
  }

  /******* Announcing *******/

  /** The index that `announce_manifest` merges: every stored manifest, and the new one in the
      place of any with its identifier. */
  ghost predicate Announces(s: Shelf, e: Entry, entries: seq<Entry>) {
    && e in entries
    && (forall f <- entries :: f == e || (f.id != e.id && f.id in s.manifests && f.manifest == s.manifests[f.id]))
    && (forall m <- s.manifests | m != e.id :: Entry(m, s.manifests[m]) in entries)
  }

  /** Announcing a manifest reports no drift: every row of the table is seen. */
  lemma {:induction false} AnnouncementSeesEveryRow(s: Shelf, e: Entry, entries: seq<Entry>)
    requires Indexed(s) && Announces(s, e, entries)
    requires e.id in s.manifests ==> s.manifests[e.id].artifacts == e.manifest.artifacts
    ensures PutEntries(s, entries, map[]).rows.Keys == SeenIn(entries)
    ensures Catalogued(s, entries, map[])
  {
    forall d ensures d in PutEntries(s, entries, map[]).rows <==> d in SeenIn(entries) {
      PutEntriesLaw(s, entries, map[], d);
      if d in s.rows {
        var m := s.rows[d].manifest;
        assert d in Listed(s.manifests[m]);
        var f := if m == e.id then e else Entry(m, s.manifests[m]);
        assert f in entries && d in Listed(f.manifest);
      }
    }
  }

  /******* Removal *******/

  lemma {:induction false} FirstIsListed(artifacts: seq<Artifact>, d: Digest)
    requires exists a <- artifacts :: IsNamed(a) && a.digest == d
    ensures First(artifacts, d) in artifacts && First(artifacts, d).digest == d && IsNamed(First(artifacts, d))
  {
    if !IsNamed(artifacts[0]) || artifacts[0].digest != d {
      FirstIsListed(artifacts[1..], d);
    }
  }

  lemma RepointedLaw(manifests: map<ManifestId, Manifest>, invalid: set<Digest>, d: Digest)
    requires d in AllNamed(manifests)
    ensures var row := Repointed(manifests, invalid, d);
            && IsNewest(manifests, d, row.manifest) && row.artifact.digest == d
            && (forall n <- manifests | d in Named(manifests[n]) && n != row.manifest ::
                  || manifests[n].created < manifests[row.manifest].created
                  || (manifests[n].created == manifests[row.manifest].created && n < row.manifest))
            && row.artifact in manifests[row.manifest].artifacts && row.artifact == First(manifests[row.manifest].artifacts, d)
            && row.eligibility == if d in invalid then Invalidated else Eligible
  {
    NewestExists(manifests, d);
    FirstIsListed(manifests[Newest(manifests, d)].artifacts, d);
  }

  /** What a removal changes: the manifest goes; of the digests it names, those that no other
      manifest names lose their rows and invalidations, the others are re-pointed; no other row
      and no other invalidation changes. */
  lemma RemovedLaw(s: Shelf, id: ManifestId, generation: Option<string>, d: Digest)
    requires id in s.manifests
    ensures var r, left := Removed(s, id, generation), s.manifests - {id};
            && r.manifests == left && r.generation == (if generation.Some? then generation.value else s.generation)
            && (d in r.invalid <==> d in s.invalid && (d in Named(s.manifests[id]) ==> d in AllNamed(left)))
            && (d in r.rows <==> d in s.rows && (d in Named(s.manifests[id]) ==> d in AllNamed(left)))
            && (d in r.rows && d !in Named(s.manifests[id]) ==> r.rows[d] == s.rows[d])
            && (d in r.rows && d in Named(s.manifests[id]) ==>
                  && IsNewest(left, d, r.rows[d].manifest)
                  && r.rows[d] == Row(First(left[r.rows[d].manifest].artifacts, d), r.rows[d].manifest,
                                      if d in s.invalid then Invalidated else Eligible))
  {
    var left := s.manifests - {id};
    if d in Named(s.manifests[id]) && d in AllNamed(left) {
      RepointedLaw(left, s.invalid, d);
    }
  }

  lemma UnknownIsNotRemoved(s: Shelf, id: ManifestId, generation: Option<string>)
    requires id !in s.manifests
    ensures Removed(s, id, generation) == s.(generation := if generation.Some? then generation.value else s.generation)
  {
  }

  /** Only the row of one digest has changed, and only its eligibility. */
  ghost predicate OnlyMarks(s: Shelf, s': Shelf, d: Digest, e: Eligibility) {
    && s'.manifests == s.manifests && s'.generation == s.generation && s'.rows.Keys == s.rows.Keys
    && (d in s.rows ==> s'.rows[d] == s.rows[d].(eligibility := e))
    && forall k <- s.rows | k != d :: s'.rows[k] == s.rows[k]
  }

  /** The row of a falsy digest still names the removed manifest, or a row is dropped although
      another manifest lists the same text as a falsy digest. */
  predicate LeavesDangling(s: Shelf, id: ManifestId) {
    && id in s.manifests
    && var left := s.manifests - {id};
       || (exists d <- Listed(s.manifests[id]) - Named(s.manifests[id]) :: d in s.rows && s.rows[d].manifest == id)
       || (exists d <- Named(s.manifests[id]) :: d in AllListed(left) && d !in AllNamed(left))
  }

  lemma NamedIsListed(manifests: map<ManifestId, Manifest>)
    ensures forall m <- manifests :: Named(manifests[m]) <= Listed(manifests[m])
    ensures AllNamed(manifests) <= AllListed(manifests)
  {
  }

  lemma IndexedRow(s: Shelf, d: Digest)
    requires Indexed(s)
    ensures RowIsExact(s, d)
  {
  }

  /** The row of a digest is exact after a removal exactly when it was neither stranded nor
      dropped in error. */
  lemma RowAfterRemoval(s: Shelf, id: ManifestId, generation: Option<string>, d: Digest)
    requires Indexed(s) && id in s.manifests
    ensures var left, touched := s.manifests - {id}, Named(s.manifests[id]);
            RowIsExact(Removed(s, id, generation), d) <==>
            if d in touched then d in AllNamed(left) || d !in AllListed(left)
            else !(d in Listed(s.manifests[id]) && s.rows[d].manifest == id)
  {
    IndexedRow(s, d);
    RemovedLaw(s, id, generation, d);
    hide Removed, Indexed, Repointed;
    if d in Named(s.manifests[id]) {
      TouchedRow(s, id, generation, d);
    } else {
      UntouchedRow(s, id, generation, d);
    }
  }

  lemma TouchedRow(s: Shelf, id: ManifestId, generation: Option<string>, d: Digest)
    requires id in s.manifests && RowIsExact(s, d) && d in Named(s.manifests[id])
    ensures RowIsExact(Removed(s, id, generation), d) <==>
              d in AllNamed(s.manifests - {id}) || d !in AllListed(s.manifests - {id})
  {
    var left := s.manifests - {id};
    NamedIsListed(s.manifests);
    NamedIsListed(left);
    if d in AllListed(left) {
      var m :| m in left && d in Listed(left[m]);
      assert d in Listed(s.manifests[m]) && d in s.rows;
    }
    if d in AllNamed(left) {
      RepointedLaw(left, s.invalid, d);
    }
  }

  lemma UntouchedRow(s: Shelf, id: ManifestId, generation: Option<string>, d: Digest)
    requires id in s.manifests && RowIsExact(s, d) && d !in Named(s.manifests[id])
    ensures d in Listed(s.manifests[id]) ==> d in s.rows
    ensures RowIsExact(Removed(s, id, generation), d) <==> !(d in Listed(s.manifests[id]) && s.rows[d].manifest == id)
  {
    hide NamedIn;
    var left := s.manifests - {id};
    if d in AllListed(left) {
      var m :| m in left && d in Listed(left[m]);
      assert d in Listed(s.manifests[m]) && d in s.rows;
    }
    if d in s.rows {
      var m := s.rows[d].manifest;
      assert d in Listed(s.manifests[m]);
      if m != id {
        assert d in Listed(left[m]);
      }
    }
    assert d in Listed(s.manifests[id]) ==> d in s.rows;
  }

  lemma IndexedByRows(s: Shelf)
    ensures Indexed(s) <==> forall d :: RowIsExact(s, d)
  {
    if forall d :: RowIsExact(s, d) {
      forall d ensures d in s.rows.Keys <==> d in AllListed(s.manifests) {
        assert RowIsExact(s, d);
      }
      forall d <- s.rows ensures s.rows[d].manifest in s.manifests && s.rows[d].artifact.digest == d
                                 && s.rows[d].artifact in s.manifests[s.rows[d].manifest].artifacts {
        assert RowIsExact(s, d);
      }
    }
  }

  /** Removing a manifest keeps the table exact unless it leaves the row of a falsy digest
      behind, or drops a row whose text another manifest lists as a falsy digest. */
  lemma {:induction false} RemoveKeepsIndexExactly(s: Shelf, id: ManifestId, generation: Option<string>)
    requires Indexed(s)
    ensures Indexed(Removed(s, id, generation)) <==> !LeavesDangling(s, id)
  {
    if id in s.manifests {
      var r, left := Removed(s, id, generation), s.manifests - {id};
      IndexedByRows(r);
      forall d ensures RowIsExact(r, d) <==> if d in Named(s.manifests[id]) then d in AllNamed(left) || d !in AllListed(left)
                                             else !(d in Listed(s.manifests[id]) && s.rows[d].manifest == id) {
        RowAfterRemoval(s, id, generation, d);
      }
      assert Listed(s.manifests[id]) <= s.rows.Keys;
      hide Removed, RowIsExact, Indexed, Listed, Named, AllListed, AllNamed;
    }
  }

  /******* Runs *******/

  datatype Op =
    | Reconcile(entries: seq<Entry>, documents: map<ManifestId, Manifest>, generation: string)
    | Announce(entry: Entry, merged: seq<Entry>, generation: string)
    | Remove(id: ManifestId, inventory: Option<string>)
    | Invalidate(digest: Digest)
    | Verify(digest: Digest)

  ghost function Do(s: Shelf, op: Op): Shelf {
    match op
    case Reconcile(entries, documents, generation) => Reconciled(s, entries, documents, generation)
    case Announce(_, merged, generation) => Reconciled(s, merged, map[], generation)
    case Remove(id, inventory) => Removed(s, id, inventory)
    case Invalidate(d) => AsInvalidated(s, d)
    case Verify(d) => AsVerified(s, d)
  }

  /** One identifier names the same artifacts throughout, announcements merge what is stored,
      and no removal strands a falsy digest. */
  ghost predicate Fair(s: Shelf, op: Op) {
    match op
    case Reconcile(entries, documents, _) => Catalogued(s, entries, documents)
    case Announce(e, merged, _) =>
      Announces(s, e, merged) && (e.id in s.manifests ==> s.manifests[e.id].artifacts == e.manifest.artifacts)
    case Remove(id, _) => !LeavesDangling(s, id)
    case Invalidate(_) => true
    case Verify(_) => true
  }

  lemma OpKeepsIndex(s: Shelf, op: Op)
    requires Indexed(s) && Fair(s, op)
    ensures Indexed(Do(s, op))
  {
    hide PutEntries, PutArtifacts, Removed, Listed, AllListed;
    match op
    case Reconcile(entries, documents, generation) => ReconcileKeepsIndex(s, entries, documents, generation);
    case Announce(e, merged, generation) =>
      AnnouncementSeesEveryRow(s, e, merged);
      ReconcileKeepsIndex(s, merged, map[], generation);
    case Remove(id, inventory) => RemoveKeepsIndexExactly(s, id, inventory);
    case Invalidate(d) =>
    case Verify(d) =>
  }

  lemma RemoveKeepsGuard(s: Shelf, id: ManifestId, generation: Option<string>)
    requires Guarded(s) && Healthy(s)
    ensures Guarded(Removed(s, id, generation)) && Healthy(Removed(s, id, generation))
  {
    if id in s.manifests {
      var r, left := Removed(s, id, generation), s.manifests - {id};
      forall d <- r.rows
        ensures d in r.invalid ==> r.rows[d].eligibility != Eligible
        ensures r.rows[d].eligibility == Invalidated ==> d in r.invalid
      {
        if d in Named(s.manifests[id]) {
          RepointedLaw(left, s.invalid, d);
        }
      }
    }
  }

  /** No write ever makes an invalidated digest eligible, or leaves the health flag out of
      step; neither needs the table to be exact. */
  lemma {:induction false} OpKeepsGuardAndHealth(s: Shelf, op: Op)
    requires Guarded(s) && Healthy(s)
    ensures Guarded(Do(s, op)) && Healthy(Do(s, op))
  {
    match op
    case Reconcile(entries, documents, generation) => ReconcileGuardsAndAgrees(s, entries, documents, generation);
    case Announce(e, merged, generation) => ReconcileGuardsAndAgrees(s, merged, map[], generation);
    case Remove(id, inventory) => RemoveKeepsGuard(s, id, inventory);
    case Invalidate(d) =>
    case Verify(d) =>
  }

  /** The write proves the digest sound, or drops the last manifest that names it. */
  ghost predicate Lifts(s: Shelf, op: Op, d: Digest) {
    || op == Verify(d)
    || (op.Remove? && op.id in s.manifests && d in Named(s.manifests[op.id]) && d !in AllNamed(s.manifests - {op.id}))
  }

  /** An invalidation is lifted only by such a write. */
  lemma {:induction false} InvalidationIsLiftedOnlyByProof(s: Shelf, op: Op, d: Digest)
    requires d in s.invalid && d !in Do(s, op).invalid
    ensures Lifts(s, op, d)
  {
    if op.Reconcile? {
      PutEntriesLaw(s, op.entries, op.documents, d);
    } else if op.Announce? {
      PutEntriesLaw(s, op.merged, map[], d);
    }
  }

  ghost function Run(s: Shelf, ops: seq<Op>): Shelf {
    if ops == [] then s else Do(Run(s, ops[..|ops| - 1]), ops[|ops| - 1])
  }

  ghost predicate FairRun(s: Shelf, ops: seq<Op>) {
    forall n | 0 <= n < |ops| :: Fair(Run(s, ops[..n]), ops[n])
  }

  /** Over every run the table stays the exact index of the stored manifests. */
  lemma {:induction false} TableIsTheIndexOverRuns(s: Shelf, ops: seq<Op>)
    requires Indexed(s) && FairRun(s, ops)
    ensures Indexed(Run(s, ops))
  {
    hide Indexed, Fair, Do;
    if ops != [] {
      var front := ops[..|ops| - 1];
      forall n | 0 <= n < |front| ensures Fair(Run(s, front[..n]), front[n]) {
        assert front[..n] == ops[..n];
      }
      TableIsTheIndexOverRuns(s, front);
      OpKeepsIndex(Run(s, front), ops[|ops| - 1]);
    }
  }

  /** Over every run no invalidated digest is eligible, and the volume is ready exactly when
      nothing is invalidated and every row is eligible. */
  lemma {:induction false} HealthOverRuns(s: Shelf, ops: seq<Op>)
    requires Guarded(s) && Healthy(s)
    ensures var r := Run(s, ops);
            && Guarded(r)
            && (r.status == Ready <==> r.invalid == {} && forall d <- r.rows :: r.rows[d].eligibility == Eligible)
            && r.status in {Ready, Degraded}
            && Healthy(r)
  {
    if ops != [] {
      hide Guarded, Do;
      HealthOverRuns(s, ops[..|ops| - 1]);
      OpKeepsGuardAndHealth(Run(s, ops[..|ops| - 1]), ops[|ops| - 1]);
    }
  }

  /** An invalidation that has gone was lifted at some point of the run. */
  lemma {:induction false} InvalidationNeedsProofOverRuns(s: Shelf, ops: seq<Op>, d: Digest)
    requires d in s.invalid && d !in Run(s, ops).invalid
    ensures exists n :: 0 <= n < |ops| && Lifts(Run(s, ops[..n]), ops[n], d)
  {
    hide Do, Lifts;
    var front := ops[..|ops| - 1];
    if d in Run(s, front).invalid {
      InvalidationIsLiftedOnlyByProof(Run(s, front), ops[|ops| - 1], d);
      assert Lifts(Run(s, ops[..|front|]), ops[|front|], d);
    } else {
      InvalidationNeedsProofOverRuns(s, front, d);
      var n :| 0 <= n < |front| && Lifts(Run(s, front[..n]), front[n], d);
      assert front[..n] == ops[..n];
      assert Lifts(Run(s, ops[..n]), ops[n], d);
    }
  }

  /** An invalidation stands, and its digest is not eligible, until a write that lifts it. */
  lemma {:induction false} InvalidationStands(s: Shelf, ops: seq<Op>, n: nat, d: Digest)
    requires Guarded(s) && Healthy(s) && n < |ops| && ops[n] == Invalidate(d)
    ensures var r := Run(s, ops);
            || (d in r.invalid && r.status == Degraded && (d in r.rows ==> r.rows[d].eligibility != Eligible))
            || exists m :: n < m < |ops| && Lifts(Run(s, ops[..m]), ops[m], d)
    decreases |ops|
  {
    HealthOverRuns(s, ops);
    hide Do, Lifts, Guarded, Healthy;
    var front := ops[..|ops| - 1];
    if n == |ops| - 1 {
      InvalidatesNow(Run(s, front), d);
    } else if d !in Run(s, ops).invalid {
      InvalidationStands(s, front, n, d);
      if d in Run(s, front).invalid {
        InvalidationIsLiftedOnlyByProof(Run(s, front), ops[|front|], d);
        assert Lifts(Run(s, ops[..|front|]), ops[|front|], d);
      } else {
        var m :| n < m < |front| && Lifts(Run(s, front[..m]), front[m], d);
        assert front[..m] == ops[..m];
        assert Lifts(Run(s, ops[..m]), ops[m], d);
      }
    }
    if d in Run(s, ops).invalid {
      InvalidIsNotEligible(Run(s, ops), d);
    }
  }

  lemma InvalidatesNow(s: Shelf, d: Digest)
    ensures var r := Do(s, Invalidate(d));
            && d in r.invalid && r.invalid == s.invalid + {d} && r.status == Degraded && OnlyMarks(s, r, d, Invalidated)
  {
  }

  lemma VerifiesNow(s: Shelf, d: Digest)
    ensures var r := Do(s, Verify(d));
            && r.invalid == s.invalid - {d} && OnlyMarks(s, r, d, Eligible)
            && r.status == if r.invalid == {} && forall k <- r.rows :: r.rows[k].eligibility == Eligible then Ready else Degraded
  {
  }

  lemma InvalidIsNotEligible(s: Shelf, d: Digest)
    requires Guarded(s) && d in s.invalid
    ensures d in s.rows ==> s.rows[d].eligibility != Eligible
  {
  }

  /** The removal of a manifest with a falsy digest can leave a row without its manifest. */
  lemma StrandedRow(text: Digest)
    ensures var m := Manifest("p", 0, [Artifact(text, true, "model", 1, "", "", None)]);
            var s := Reconciled(Shelf(map[], map[], {}, Ready, ""), [Entry(7, m)], map[], "1");
            Indexed(s) && !Indexed(Removed(s, 7, None))
  {
    var a := Artifact(text, true, "model", 1, "", "", None);
    var m := Manifest("p", 0, [a]);
    var empty := Shelf(map[], map[], {}, Ready, "");
    var s := Reconciled(empty, [Entry(7, m)], map[], "1");
    assert Indexed(empty);
    ReconcileKeepsIndex(empty, [Entry(7, m)], map[], "1");
    PutEntriesLaw(empty, [Entry(7, m)], map[], text);
    assert a in m.artifacts && text in Listed(m) - Named(m) && Entry(7, m) in [Entry(7, m)];
    assert text in SeenIn([Entry(7, m)]);
    assert LeavesDangling(s, 7);
    RemoveKeepsIndexExactly(s, 7, None);
  }
}
