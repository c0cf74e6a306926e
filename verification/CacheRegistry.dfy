/** The registry's writes (cloud_offload/cache_registry.py) to the rows of one volume, as an
    object updated in place.  Each write is proved to be the function of `CacheIndex` whose
    laws are proved there. */
module CacheRegistry {
  import opened Prelude
  import opened CacheIndex

  datatype Refusal = UnsupportedSchema | MissingGeneration

  datatype Reconciliation = Reconciliation(artifacts: nat, drifted: nat)

  datatype Removal = Removal(manifests: nat, restored: nat, removed: nat)

  datatype Outcome = Hit | Miss | Corruption

  function Count(entries: seq<Entry>): nat {
    if entries == [] then 0 else Count(entries[..|entries| - 1]) + |entries[|entries| - 1].manifest.artifacts|
  }

  /** The rows, with those of some digests marked unknown. */
  function Doubted(rows: map<Digest, Row>, digests: set<Digest>): map<Digest, Row> {
    map d | d in rows :: if d in digests then rows[d].(eligibility := Unknown) else rows[d]
  }

  lemma {:induction false} SameDocuments(s: Shelf, entries: seq<Entry>, documents: map<ManifestId, Manifest>)
    requires forall e <- entries :: e.id in documents && documents[e.id] == e.manifest
    ensures PutEntries(s, entries, documents) == PutEntries(s, entries, map[])
  {
    if entries != [] {
      SameDocuments(s, entries[..|entries| - 1], documents);
    }
  }

  lemma SeenInNone()
    ensures SeenIn([]) == {}
  {
  }

  lemma SeenInNext(entries: seq<Entry>, i: nat)
    requires i < |entries|
    ensures SeenIn(entries[..i + 1]) == SeenIn(entries[..i]) + Listed(entries[i].manifest)
  {
    assert entries[..i + 1] == entries[..i] + [entries[i]];
  }

  lemma NamedInNext(artifacts: seq<Artifact>, j: nat)
    requires j < |artifacts|
    ensures NamedIn(artifacts[..j + 1]) == NamedIn(artifacts[..j]) + if IsNamed(artifacts[j]) then {artifacts[j].digest} else {}
  {
    assert artifacts[..j + 1] == artifacts[..j] + [artifacts[j]];
  }

  lemma OneMore(done: set<Digest>, keys: set<Digest>, d: Digest)
    requires d !in done
    ensures d in keys ==> |(done + {d}) * keys| == |done * keys| + 1 && (done + {d}) - keys == done - keys
    ensures d !in keys ==> |(done + {d}) - keys| == |done - keys| + 1 && (done + {d}) * keys == done * keys
    ensures d !in keys ==> (done + {d}) - keys == (done - keys) + {d}
  {
    if d in keys {
      assert (done + {d}) * keys == done * keys + {d};
    } else {
      assert (done + {d}) - keys == (done - keys) + {d};
    }
  }

  lemma DoubtedIsDrifted(rows: map<Digest, Row>, seen: set<Digest>)
    ensures Doubted(rows, rows.Keys - seen) == Drifted(rows, seen)
    ensures rows.Keys - seen == {} <==> rows.Keys <= seen
    ensures Drifted(rows, seen).Keys == rows.Keys
  {
    if rows.Keys - seen == {} {
      forall d <- rows.Keys ensures d in seen {
        assert d !in rows.Keys - seen;
      }
    }
  }

  lemma MergedAnnounces(s: Shelf, e: Entry, documents: map<ManifestId, Manifest>, entries: seq<Entry>)
    requires documents == s.manifests[e.id := e.manifest]
    requires forall m <- documents :: Entry(m, documents[m]) in entries
    requires forall f <- entries :: f.id in documents && documents[f.id] == f.manifest
    ensures Announces(s, e, entries)
  {
    assert Entry(e.id, documents[e.id]) in entries;
    forall m <- s.manifests | m != e.id ensures Entry(m, s.manifests[m]) in entries {
      assert m in documents;
    }
  }

  class CacheRegistry {
    var manifests: map<ManifestId, Manifest>
    var rows: map<Digest, Row>
    var invalid: set<Digest>
    var status: Status
    var generation: string

    function Volume(): Shelf
      reads this
    {
      Shelf(manifests, rows, invalid, status, generation)
    }

    method ReconcileIndex(supported: bool, inventory: string, entries: seq<Entry>, documents: map<ManifestId, Manifest>)
      returns (r: Result<Reconciliation, Refusal>)
      modifies this
      ensures r.Err? <==> !supported || inventory == ""
      ensures r.Err? ==> Volume() == old(Volume()) && r.error == if supported then MissingGeneration else UnsupportedSchema
      ensures r.Ok? ==> Volume() == Reconciled(old(Volume()), entries, documents, inventory)
      ensures r.Ok? ==> r.value == Reconciliation(Count(entries), |rows.Keys - SeenIn(entries)|)
    {
      if !supported {
        return Err(UnsupportedSchema);
      }
      if inventory == "" {
        return Err(MissingGeneration);
      }
      hide PutEntries, SeenIn, Drifted, Doubted, Count;
      var seen, inserted := UpsertEntries(entries, documents);
      var drifted := rows.Keys - seen;
      MarkDrifted(drifted);
      generation := inventory;
      status := if drifted != {} || invalid != {} then Degraded else Ready;
      DoubtedIsDrifted(PutEntries(old(Volume()), entries, documents).rows, seen);
      r := Ok(Reconciliation(inserted, |drifted|));
    }

    method UpsertEntries(entries: seq<Entry>, documents: map<ManifestId, Manifest>)
      returns (seen: set<Digest>, inserted: nat)
      modifies this`manifests, this`rows
      ensures Volume() == PutEntries(old(Volume()), entries, documents)
      ensures seen == SeenIn(entries) && inserted == Count(entries)
    {
      hide SeenIn, Document, PutArtifacts;
      seen, inserted := {}, 0;
      SeenInNone();
      for i := 0 to |entries|
        invariant Volume() == PutEntries(old(Volume()), entries[..i], documents)
        invariant seen == SeenIn(entries[..i]) && inserted == Count(entries[..i])
      {
        assert entries[..i + 1][..i] == entries[..i];
        SeenInNext(entries, i);
        var e := entries[i];
        manifests := manifests[e.id := Document(e, documents)];
        var seenHere := UpsertRows(e.id, e.manifest.artifacts);
        seen := seen + seenHere;
        inserted := inserted + |e.manifest.artifacts|;
      }
      assert entries[..|entries|] == entries;
    }

    method UpsertRows(id: ManifestId, artifacts: seq<Artifact>) returns (seen: set<Digest>)
      modifies this`rows
      ensures rows == PutArtifacts(old(rows), invalid, id, artifacts)
      ensures seen == (set a <- artifacts :: a.digest)
    {
      seen := {};
      for j := 0 to |artifacts|
        invariant rows == PutArtifacts(old(rows), invalid, id, artifacts[..j])
        invariant seen == set a <- artifacts[..j] :: a.digest
      {
        assert artifacts[..j + 1][..j] == artifacts[..j];
        var a := artifacts[j];
        seen := seen + {a.digest};
        assert artifacts[..j + 1] == artifacts[..j] + [a];
        rows := rows[a.digest := Row(a, id, if a.digest in invalid then Invalidated else Eligible)];
      }
      assert artifacts[..|artifacts|] == artifacts;
    }

    method MarkDrifted(drifted: set<Digest>)
      modifies this`rows
      ensures rows == Doubted(old(rows), drifted)
    {
      var todo := drifted;
      while todo != {}
        invariant todo <= drifted && rows == Doubted(old(rows), drifted - todo)
        decreases todo
      {
        var d :| d in todo;
        if d in rows {
          rows := rows[d := rows[d].(eligibility := Unknown)];
        }
        todo := todo - {d};
      }
    }

    /** Merges one manifest into the stored ones; under an exact table, no row drifts. */
    method AnnounceManifest(inventory: string, e: Entry)
      returns (r: Result<Reconciliation, Refusal>, ghost merged: seq<Entry>)
      modifies this
      ensures Announces(old(Volume()), e, merged)
      ensures r.Err? <==> inventory == ""
      ensures r.Err? ==> Volume() == old(Volume())
      ensures r.Ok? ==> Volume() == Do(old(Volume()), Announce(e, merged, inventory))
      ensures r.Ok? && old(Indexed(Volume())) && (e.id in old(manifests) ==>
                old(manifests)[e.id].artifacts == e.manifest.artifacts) ==>
                r.value.drifted == 0
    {
      hide PutEntries, SeenIn, Indexed;
      var documents := manifests[e.id := e.manifest];
      var entries := IndexOf(documents);
      merged := entries;
      MergedAnnounces(Volume(), e, documents, entries);
      SameDocuments(Volume(), entries, documents);
      r := ReconcileIndex(true, inventory, entries, documents);
      if r.Ok? && old(Indexed(Volume())) && (e.id in old(manifests) ==> old(manifests)[e.id].artifacts == e.manifest.artifacts) {
        AnnouncementSeesEveryRow(old(Volume()), e, entries);
        assert rows.Keys - SeenIn(entries) == {};
      }
    }

    method IndexOf(documents: map<ManifestId, Manifest>) returns (entries: seq<Entry>)
      ensures forall m <- documents :: Entry(m, documents[m]) in entries
      ensures forall f <- entries :: f.id in documents && documents[f.id] == f.manifest
    {
      entries := [];
      var todo := documents.Keys;
      while todo != {}
        invariant todo <= documents.Keys
        invariant forall m <- documents | m !in todo :: Entry(m, documents[m]) in entries
        invariant forall f <- entries :: f.id in documents && documents[f.id] == f.manifest
        decreases todo
      {
        var m :| m in todo;
        entries := entries + [Entry(m, documents[m])];
        todo := todo - {m};
      }
    }

    /** For every digest the newest manifest that names it, by visiting the manifests from the
        newest to the oldest; artifacts with a falsy digest go under the empty text. */
    method LatestByDigest() returns (latest: map<Digest, (ManifestId, Artifact)>)
      ensures IsLatest(manifests, manifests.Keys, latest)
      ensures forall d | d != "" :: d in latest <==> d in AllNamed(manifests)
    {
      latest := map[];
      var todo := manifests.Keys;
      while todo != {}
        invariant todo <= manifests.Keys
        invariant forall m <- manifests.Keys - todo, n <- todo :: Newer(m, manifests[m], n, manifests[n])
        invariant forall m <- manifests.Keys - todo, d <- Named(manifests[m]) :: d in latest
        invariant IsLatest(manifests, manifests.Keys - todo, latest)
        decreases todo
      {
        NewestOfAll(manifests, todo);
        var m :| m in todo && IsTop(manifests, todo, m);
        latest := AddUnlisted(latest, m);
        todo := todo - {m};
      }
      forall d | d != "" ensures d in latest <==> d in AllNamed(manifests) {
        if d in latest {
          assert d in Named(manifests[latest[d].0]);
        }
      }
    }

    /** Adds the artifacts of a manifest whose digests are not in the table yet. */
    method AddUnlisted(latest: map<Digest, (ManifestId, Artifact)>, m: ManifestId)
      returns (more: map<Digest, (ManifestId, Artifact)>)
      requires m in manifests
      ensures forall d | d != "" :: d in more <==> d in latest || d in Named(manifests[m])
      ensures forall d <- more | d != "" ::
                if d in latest then more[d] == latest[d]
                else d in Named(manifests[m]) && more[d] == (m, First(manifests[m].artifacts, d))
    {
      more := latest;
      var artifacts := manifests[m].artifacts;
      for j := 0 to |artifacts|
        invariant forall d | d != "" :: d in more <==> d in latest || d in NamedIn(artifacts[..j])
        invariant forall d <- more | d != "" ::
                    if d in latest then more[d] == latest[d]
                    else d in Named(manifests[m]) && more[d] == (m, First(artifacts, d))
      {
        var a := artifacts[j];
        NamedInNext(artifacts, j);
        var key := if IsNamed(a) then a.digest else "";
        if key !in more {
          if IsNamed(a) {
            forall i | 0 <= i < j && IsNamed(artifacts[i]) ensures artifacts[i].digest != a.digest {
              assert artifacts[..j][i] == artifacts[i];
            }
            FirstIsHere(artifacts, j);
          }
          more := more[key := (m, a)];
        }
      }
      assert artifacts[..|artifacts|] == artifacts;
    }

    method RemoveManifest(id: ManifestId, inventory: Option<string>) returns (r: Removal)
      modifies this
      ensures Volume() == Removed(old(Volume()), id, inventory)
      ensures id !in old(manifests) ==> r == Removal(0, 0, 0)
      ensures id in old(manifests) ==>
                var touched := Named(old(manifests)[id]);
                r == Removal(1, |touched * AllNamed(manifests)|, |touched - AllNamed(manifests)|)
    {
      if id !in manifests {
        if inventory.Some? {
          generation := inventory.value;
        }
        return Removal(0, 0, 0);
      }
      var touched := NamedIn(manifests[id].artifacts);
      manifests := manifests - {id};
      var latest := LatestByDigest();
      var restored, removed := RebuildRows(touched, latest);
      RebuiltIsRemoved(old(Volume()), id, inventory);
      hide Removed, Rebuilt, AllNamed, Health;
      if inventory.Some? {
        generation := inventory.value;
      }
      RefreshVolumeHealth();
      r := Removal(1, restored, removed);
    }

    method RebuildRows(touched: set<Digest>, latest: map<Digest, (ManifestId, Artifact)>)
      returns (restored: nat, removed: nat)
      requires "" !in touched && forall d | d != "" :: d in latest <==> d in AllNamed(manifests)
      requires IsLatest(manifests, manifests.Keys, latest)
      modifies this`rows, this`invalid
      ensures rows == Rebuilt(old(rows), manifests, old(invalid), touched)
      ensures invalid == old(invalid) - (touched - AllNamed(manifests))
      ensures restored == |touched * AllNamed(manifests)| && removed == |touched - AllNamed(manifests)|
    {
      hide IsLatest, IsNewest, First, Repointed, AllNamed, Rebuilt, Progress, RowRebuilt;
      restored, removed := 0, 0;
      ghost var done: set<Digest> := {};
      NoProgress(manifests, rows, invalid);
      var todo := touched;
      while todo != {}
        invariant done == touched - todo && todo <= touched
        invariant Progress(manifests, old(rows), old(invalid), done, rows, invalid, restored, removed)
        decreases todo
      {
        var d :| d in todo;
        ghost var rowsBefore, invalidBefore := rows, invalid;
        var survives := RebuildRow(d, latest);
        MoreProgress(manifests, old(rows), old(invalid), done, rowsBefore, invalidBefore, restored, removed, d, rows, invalid);
        if survives {
          restored := restored + 1;
        } else {
          removed := removed + 1;
        }
        done, todo := done + {d}, todo - {d};
      }
      assert done == touched;
      AllProgress(manifests, old(rows), old(invalid), touched, rows, invalid, restored, removed);
    }

    method RebuildRow(d: Digest, latest: map<Digest, (ManifestId, Artifact)>) returns (survives: bool)
      requires d != "" && (d in latest <==> d in AllNamed(manifests))
      requires IsLatest(manifests, manifests.Keys, latest)
      modifies this`rows, this`invalid
      ensures survives <==> d in AllNamed(manifests)
      ensures RowRebuilt(manifests, old(rows), old(invalid), d, rows, invalid)
    {
      if d !in latest {
        rows := rows - {d};
        invalid := invalid - {d};
        return false;
      }
      var (m, a) := latest[d];
      OnlyOneNewest(manifests, invalid, d, m);
      if d in rows {
        rows := rows[d := Row(a, m, if d in invalid then Invalidated else Eligible)];
      }
      survives := true;
    }

    method RefreshVolumeHealth()
      modifies this`status
      ensures status == Health(rows, invalid)
      ensures status == if invalid == {} && forall k <- rows :: rows[k].eligibility == Eligible then Ready else Degraded
    {
      var unhealthy := invalid != {} || exists d <- rows :: rows[d].eligibility != Eligible;
      status := if unhealthy then Degraded else Ready;
    }

    method InvalidateDigest(d: Digest)
      modifies this
      ensures Volume() == Do(old(Volume()), Invalidate(d))
      ensures invalid == old(invalid) + {d} && status == Degraded
      ensures OnlyMarks(old(Volume()), Volume(), d, Invalidated)
    {
      invalid := invalid + {d};
      if d in rows {
        rows := rows[d := rows[d].(eligibility := Invalidated)];
      }
      status := Degraded;
    }

    method MarkVerified(d: Digest)
      modifies this
      ensures Volume() == Do(old(Volume()), Verify(d))
      ensures invalid == old(invalid) - {d} && OnlyMarks(old(Volume()), Volume(), d, Eligible)
      ensures status == if invalid == {} && forall k <- rows :: rows[k].eligibility == Eligible then Ready else Degraded
    {
      invalid := invalid - {d};
      if d in rows {
        rows := rows[d := rows[d].(eligibility := Eligible)];
      }
      RefreshVolumeHealth();
    }

    /** An observation changes the table only by reporting corruption or by a full
        verification. */
    method RecordObservation(digest: Option<Digest>, result: Outcome, fullDigest: bool)
      modifies this
      ensures digest.Some? && result == Corruption ==>
                && Volume() == Do(old(Volume()), Invalidate(digest.value))
                && invalid == old(invalid) + {digest.value} && status == Degraded
                && OnlyMarks(old(Volume()), Volume(), digest.value, Invalidated)
      ensures digest.Some? && result == Hit && fullDigest ==>
                && Volume() == Do(old(Volume()), Verify(digest.value))
                && invalid == old(invalid) - {digest.value} && OnlyMarks(old(Volume()), Volume(), digest.value, Eligible)
                && status == if invalid == {} && forall k <- rows :: rows[k].eligibility == Eligible then Ready else Degraded
      ensures digest.None? || result == Miss || (result == Hit && !fullDigest) ==> Volume() == old(Volume())
    {
      if digest.Some? {
        if result == Corruption {
          InvalidateDigest(digest.value);
        } else if result == Hit && fullDigest {
          MarkVerified(digest.value);
        }
      }
    }
  }

  /** Every digest points to its newest manifest, one of these, and its first artifact there. */
  ghost predicate IsLatest(manifests: map<ManifestId, Manifest>, visited: set<ManifestId>,
                           latest: map<Digest, (ManifestId, Artifact)>) {
    forall d <- latest | d != "" ::
      && latest[d].0 in visited && IsNewest(manifests, d, latest[d].0)
      && latest[d].1 == First(manifests[latest[d].0].artifacts, d)
  }

  predicate IsTop(manifests: map<ManifestId, Manifest>, todo: set<ManifestId>, m: ManifestId)
    requires todo <= manifests.Keys
  {
    m in todo && forall n <- todo | n != m :: Newer(m, manifests[m], n, manifests[n])
  }

  lemma {:induction false} NewestOfAll(manifests: map<ManifestId, Manifest>, todo: set<ManifestId>)
    requires todo <= manifests.Keys && todo != {}
    ensures exists m :: IsTop(manifests, todo, m)
    decreases todo
  {
    var m :| m in todo;
    var rest := todo - {m};
    assert todo == rest + {m};
    if rest == {} {
      assert IsTop(manifests, todo, m);
    } else {
      NewestOfAll(manifests, rest);
      var n :| IsTop(manifests, rest, n);
      assert IsTop(manifests, todo, if Newer(m, manifests[m], n, manifests[n]) then m else n);
    }
  }

  /** Before index `j` no artifact has its digest. */
  lemma {:induction false} FirstIsHere(artifacts: seq<Artifact>, j: nat)
    requires j < |artifacts| && IsNamed(artifacts[j])
    requires forall i | 0 <= i < j :: IsNamed(artifacts[i]) ==> artifacts[i].digest != artifacts[j].digest
    ensures First(artifacts, artifacts[j].digest) == artifacts[j]
  {
    if j > 0 {
      FirstIsHere(artifacts[1..], j - 1);
    }
  }

  lemma OnlyOneNewest(manifests: map<ManifestId, Manifest>, invalid: set<Digest>, d: Digest, m: ManifestId)
    requires IsNewest(manifests, d, m)
    ensures d in AllNamed(manifests) && Newest(manifests, d) == m
    ensures Repointed(manifests, invalid, d) == FreshRow(invalid, m, First(manifests[m].artifacts, d))
    ensures First(manifests[m].artifacts, d).digest == d
  {
    NewestExists(manifests, d);
    FirstIsListed(manifests[m].artifacts, d);
    assert IsNewest(manifests, d, Newest(manifests, d));
  }

  /** The rows after the digests in `done` were dropped or re-pointed. */
  ghost function Rebuilt(rows: map<Digest, Row>, manifests: map<ManifestId, Manifest>, invalid: set<Digest>,
                        done: set<Digest>): map<Digest, Row> {
    map d | d in rows && !(d in done && d !in AllNamed(manifests)) ::
      if d in done then Repointed(manifests, invalid, d) else rows[d]
  }

  lemma SameRepointing(manifests: map<ManifestId, Manifest>, a: set<Digest>, b: set<Digest>, d: Digest)
    requires d in AllNamed(manifests) && (d in a <==> d in b)
    ensures Repointed(manifests, a, d) == Repointed(manifests, b, d)
  {
    RepointedLaw(manifests, a, d);
    RepointedLaw(manifests, b, d);
  }

  /** One digest was dropped with its invalidation, or re-pointed. */
  ghost predicate RowRebuilt(manifests: map<ManifestId, Manifest>, rows: map<Digest, Row>, invalid: set<Digest>,
                        d: Digest,
                             rows': map<Digest, Row>, invalid': set<Digest>)
  {
    if d in AllNamed(manifests) then
      invalid' == invalid && rows' == if d in rows then rows[d := Repointed(manifests, invalid, d)] else rows
    else
      invalid' == invalid - {d} && rows' == rows - {d}
  }

  /** The digests in `done` have been dealt with. */
  ghost predicate Progress(manifests: map<ManifestId, Manifest>, rows: map<Digest, Row>, invalid: set<Digest>,
                        done: set<Digest>,
                           rows': map<Digest, Row>, invalid': set<Digest>, restored: nat, removed: nat)
  {
    && rows' == Rebuilt(rows, manifests, invalid, done) && invalid' == invalid - (done - AllNamed(manifests))
    && restored == |done * AllNamed(manifests)| && removed == |done - AllNamed(manifests)|
  }

  lemma NoProgress(manifests: map<ManifestId, Manifest>, rows: map<Digest, Row>, invalid: set<Digest>)
    ensures Progress(manifests, rows, invalid, {}, rows, invalid, 0, 0)
  {
    NothingRebuilt(rows, manifests, invalid);
    hide Rebuilt, AllNamed;
    assert {} * AllNamed(manifests) == {} && {} - AllNamed(manifests) == {};
  }

  lemma MoreProgress(manifests: map<ManifestId, Manifest>, rows: map<Digest, Row>, invalid: set<Digest>,
                     done: set<Digest>,
                     rows': map<Digest, Row>, invalid': set<Digest>, restored: nat, removed: nat,
                     d: Digest, rows'': map<Digest, Row>, invalid'': set<Digest>)
    requires Progress(manifests, rows, invalid, done, rows', invalid', restored, removed) && d !in done
    requires RowRebuilt(manifests, rows', invalid', d, rows'', invalid'')
    ensures d in AllNamed(manifests) ==>
              Progress(manifests, rows, invalid, done + {d}, rows'', invalid'', restored + 1, removed)
    ensures d !in AllNamed(manifests) ==>
              Progress(manifests, rows, invalid, done + {d}, rows'', invalid'', restored, removed + 1)
  {
    OneMore(done, AllNamed(manifests), d);
    RebuildOneMore(rows, manifests, invalid, done, d);
    if d in AllNamed(manifests) {
      SameRepointing(manifests, invalid, invalid', d);
    }
    hide Rebuilt, Repointed, AllNamed;
  }

  lemma AllProgress(manifests: map<ManifestId, Manifest>, rows: map<Digest, Row>, invalid: set<Digest>,
                    touched: set<Digest>,
                    rows': map<Digest, Row>, invalid': set<Digest>, restored: nat, removed: nat)
    requires Progress(manifests, rows, invalid, touched, rows', invalid', restored, removed)
    ensures rows' == Rebuilt(rows, manifests, invalid, touched) && invalid' == invalid - (touched - AllNamed(manifests))
    ensures restored == |touched * AllNamed(manifests)| && removed == |touched - AllNamed(manifests)|
  {
  }

  lemma NothingRebuilt(rows: map<Digest, Row>, manifests: map<ManifestId, Manifest>, invalid: set<Digest>)
    ensures Rebuilt(rows, manifests, invalid, {}) == rows
  {
  }

  lemma RebuildOneMore(rows: map<Digest, Row>, manifests: map<ManifestId, Manifest>, invalid: set<Digest>,
                       done: set<Digest>, d: Digest)
    requires d !in done
    ensures var before, after := Rebuilt(rows, manifests, invalid, done), Rebuilt(rows, manifests, invalid, done + {d});
            && (d in before <==> d in rows)
            && after == if d !in AllNamed(manifests) then before - {d}
                        else if d in rows then before[d := Repointed(manifests, invalid, d)] else before
  {
    hide Repointed, AllNamed;
  }

  lemma RebuiltIsRemoved(s: Shelf, id: ManifestId, inventory: Option<string>)
    requires id in s.manifests
    ensures var left, touched := s.manifests - {id}, Named(s.manifests[id]);
            var rows, invalid := Rebuilt(s.rows, left, s.invalid, touched), s.invalid - (touched - AllNamed(left));
            Removed(s, id, inventory) ==
            Shelf(left, rows, invalid, Health(rows, invalid), if inventory.Some? then inventory.value else s.generation)
  {
    hide Repointed, Health;
    var left, touched := s.manifests - {id}, Named(s.manifests[id]);
    assert Removed(s, id, inventory).rows == Rebuilt(s.rows, left, s.invalid, touched);
  }
}
