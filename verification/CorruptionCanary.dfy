/** The corruption canary (cloud_offload/benchmark_faults.py): a synthetic artifact is
    published on a prepared volume and corrupted, and everything is put back afterwards.

    Every call may fail, or take effect and fail; a crash is a failure after which nothing
    more happens.  A read that fails looks like a missing object.  What fails in a run is an
    input, `Faults`.  All writes keep `Disturbed`, from which a cleanup restores the volume,
    the coordinator's artifacts and the registry, except for what it could not read. */
module CorruptionCanary {
  import opened Flows
  import opened Prelude

  type Digest = string

  /** The prefixes of object keys; keys below a prefix are numbered in the order of their
      text. */
  datatype Section = Manifests | Indexes | PendingAnnouncements | Quarantine(digest: Digest) | Blobs | Staging | Elsewhere

  datatype Key = Key(section: Section, number: nat)

  /** `indexes/latest` */
  const LATEST := Key(Indexes, 0)

  datatype Payload = StateDoc(canary: Canary) | Generation(number: nat) | Content(text: string, mentions: set<Digest>)

  /** What the state document records. */
  datatype Canary = Canary(
    digest: Digest, stateKey: Key, blobKey: Key, artifactKey: nat, manifestId: nat, manifestKey: Key,
    generation: nat, original: nat)

  /** The volume's objects, the coordinator's artifacts, and the digests of the registered
      manifests. */
  datatype Stores = Stores(objects: map<Key, Payload>, artifacts: map<nat, string>, registry: map<nat, set<Digest>>)

  /** `indexes/<generation>.json` */
  function IndexKey(generation: nat): Key {
    Key(Indexes, generation + 1)
  }

  predicate IsMetadata(k: Key) {
    k.section in {Manifests, Indexes, PendingAnnouncements} && k != LATEST
  }

  predicate Mentions(p: Payload, d: Digest) {
    p.Content? && d in p.mentions
  }

  /** The keys of the canary lie where the benchmark puts them. */
  predicate IsWellKeyed(c: Canary) {
    c.stateKey.section == Staging && c.blobKey.section == Blobs && c.manifestKey.section == Manifests && c.generation != c.original
  }

  /** The original store has no trace of the canary, and its latest generation is recorded and
      indexed. */
  ghost predicate Fresh(o: Stores, c: Canary) {
    && IsWellKeyed(c)
    && c.stateKey !in o.objects && c.blobKey !in o.objects && c.manifestKey !in o.objects && IndexKey(c.generation) !in o.objects
    && (forall k <- o.objects :: k.section != Quarantine(c.digest) && !(IsMetadata(k) && Mentions(o.objects[k], c.digest)))
    && LATEST in o.objects && o.objects[LATEST] == Generation(c.original) && IndexKey(c.original) in o.objects
    && c.artifactKey !in o.artifacts
    && (forall m <- o.registry :: m != c.manifestId && c.digest !in o.registry[m])
  }

  ghost predicate Same<K, V>(a: map<K, V>, b: map<K, V>, k: K) {
    (k in a <==> k in b) && (k in a ==> a[k] == b[k])
  }

  /** The keys that the benchmark and its worker may write. */
  ghost predicate Touchable(o: Stores, c: Canary, k: Key) {
    k in {c.stateKey, c.blobKey, LATEST} || k.section == Quarantine(c.digest) || (IsMetadata(k) && k !in o.objects)
  }

  /** How far a stopped benchmark can have got: new metadata mentions the canary's digest, and
      while the latest generation is the canary's, the state document is there. */
  ghost predicate Disturbed(o: Stores, s: Stores, c: Canary) {
    ObjectsDisturbed(o, s.objects, c) && ArtifactsDisturbed(o, s.artifacts, c) && RegistryDisturbed(o, s.registry, c)
  }

  ghost predicate ObjectsDisturbed(o: Stores, objects: map<Key, Payload>, c: Canary) {
    && (forall k | !Touchable(o, c, k) :: Same(o.objects, objects, k))
    && (forall k <- objects | IsMetadata(k) && k !in o.objects :: Mentions(objects[k], c.digest))
    && (c.stateKey in objects ==> objects[c.stateKey] == StateDoc(c))
    && LATEST in objects
    && (objects[LATEST] == Generation(c.original) || (objects[LATEST] == Generation(c.generation) && c.stateKey in objects))
  }

  ghost predicate ArtifactsDisturbed(o: Stores, artifacts: map<nat, string>, c: Canary) {
    forall a | a != c.artifactKey :: Same(o.artifacts, artifacts, a)
  }

  ghost predicate RegistryDisturbed(o: Stores, registry: map<nat, set<Digest>>, c: Canary) {
    forall m :: Same(o.registry, registry, m) || (m !in o.registry && m in registry && c.digest in registry[m])
  }

  lemma UndisturbedIsDisturbed(o: Stores, c: Canary)
    requires Fresh(o, c)
    ensures Disturbed(o, o, c)
  {
  }

  /** Objects without any trace of the canary are the original ones. */
  lemma TracelessIsOriginal(o: Stores, objects: map<Key, Payload>, c: Canary)
    requires Fresh(o, c) && ObjectsDisturbed(o, objects, c)
    requires c.stateKey !in objects && c.blobKey !in objects
    requires forall k <- objects :: k.section != Quarantine(c.digest) && !(IsMetadata(k) && Mentions(objects[k], c.digest))
    ensures objects == o.objects
  {
    forall k ensures Same(o.objects, objects, k) {
      if Touchable(o, c, k) && IsMetadata(k) {
        assert k !in objects;
      }
    }
    assert objects.Keys == o.objects.Keys by {
      forall k ensures k in objects <==> k in o.objects {
        assert Same(o.objects, objects, k);
      }
    }
    forall k <- objects ensures objects[k] == o.objects[k] {
      assert Same(o.objects, objects, k);
    }
  }

  lemma TracelessRegistry(o: Stores, registry: map<nat, set<Digest>>, c: Canary)
    requires RegistryDisturbed(o, registry, c) && forall m <- registry :: c.digest !in registry[m]
    ensures registry == o.registry
  {
    assert forall m :: Same(o.registry, registry, m);
    assert registry.Keys == o.registry.Keys by {
      forall m ensures m in registry <==> m in o.registry {
        assert Same(o.registry, registry, m);
      }
    }
    forall m <- registry ensures registry[m] == o.registry[m] {
      assert Same(o.registry, registry, m);
    }
  }

  lemma TracelessArtifacts(o: Stores, artifacts: map<nat, string>, c: Canary)
    requires Fresh(o, c) && ArtifactsDisturbed(o, artifacts, c) && c.artifactKey !in artifacts
    ensures artifacts == o.artifacts
  {
    assert artifacts.Keys == o.artifacts.Keys by {
      forall a ensures a in artifacts <==> a in o.artifacts {
        if a != c.artifactKey {
          assert Same(o.artifacts, artifacts, a);
        }
      }
    }
    forall a <- artifacts ensures artifacts[a] == o.artifacts[a] {
      assert Same(o.artifacts, artifacts, a);
    }
  }

  /******* Writes *******/

  /** The write of one object that keeps the store restorable. */
  ghost predicate IsFair(o: Stores, objects: map<Key, Payload>, c: Canary, k: Key, p: Payload) {
    && Touchable(o, c, k)
    && (IsMetadata(k) ==> Mentions(p, c.digest))
    && (k == c.stateKey ==> p == StateDoc(c))
    && (k == LATEST ==> p == Generation(c.original) || (p == Generation(c.generation) && c.stateKey in objects))
  }

  lemma PutKeeps(o: Stores, objects: map<Key, Payload>, c: Canary, k: Key, p: Payload)
    requires Fresh(o, c) && ObjectsDisturbed(o, objects, c) && IsFair(o, objects, c, k, p)
    ensures ObjectsDisturbed(o, objects[k := p], c)
  {
  }

  /** A key that may be deleted: the state document goes only after the latest generation was
      restored. */
  ghost predicate MayDelete(o: Stores, objects: map<Key, Payload>, c: Canary, k: Key)
    requires LATEST in objects
  {
    Touchable(o, c, k) && k != LATEST && (k == c.stateKey ==> objects[LATEST] == Generation(c.original))
  }

  lemma DeleteKeeps(o: Stores, objects: map<Key, Payload>, c: Canary, k: Key)
    requires Fresh(o, c) && ObjectsDisturbed(o, objects, c) && LATEST in objects && MayDelete(o, objects, c, k)
    ensures ObjectsDisturbed(o, objects - {k}, c)
  {
  }

  lemma OtherArtifactsStay(o: Stores, artifacts: map<nat, string>, artifacts': map<nat, string>, c: Canary)
    requires ArtifactsDisturbed(o, artifacts, c) && forall a | a != c.artifactKey :: Same(artifacts, artifacts', a)
    ensures ArtifactsDisturbed(o, artifacts', c)
  {
    forall a | a != c.artifactKey ensures Same(o.artifacts, artifacts', a) {
      assert Same(o.artifacts, artifacts, a) && Same(artifacts, artifacts', a);
    }
  }

  lemma ArtifactKeeps(o: Stores, artifacts: map<nat, string>, c: Canary)
    requires ArtifactsDisturbed(o, artifacts, c)
    ensures ArtifactsDisturbed(o, artifacts[c.artifactKey := c.digest], c)
    ensures ArtifactsDisturbed(o, artifacts - {c.artifactKey}, c)
  {
    OtherArtifactsStay(o, artifacts, artifacts[c.artifactKey := c.digest], c);
    OtherArtifactsStay(o, artifacts, artifacts - {c.artifactKey}, c);
  }

  /** The worker of the benchmark's job may quarantine the blob, put it back, and write metadata
      about it: such writes keep the store restorable, too. */
  lemma WorkerWriteKeeps(o: Stores, objects: map<Key, Payload>, c: Canary, k: Key, p: Payload)
    requires Fresh(o, c) && ObjectsDisturbed(o, objects, c)
    requires k == c.blobKey || k.section == Quarantine(c.digest) || (IsMetadata(k) && k !in o.objects && Mentions(p, c.digest))
    ensures ObjectsDisturbed(o, objects[k := p], c) && ObjectsDisturbed(o, objects - {k}, c)
  {
    PutKeeps(o, objects, c, k, p);
    DeleteKeeps(o, objects, c, k);
  }

  /******* What a cleanup leaves *******/

  /** A call succeeds, fails without effect, or takes effect and fails. */
  datatype Fault = Fine | Lost | Late

  /** What goes wrong in one run: the keys whose request fails, whether the last one for the
      latest generation fails, and what becomes of the nth other call; reading the body of an
      answer is such a call. */
  datatype Faults = Faults(unreadable: set<Key>, unconfirmed: bool, calls: nat -> Fault)

  /** None of these calls fails. */
  ghost predicate Smooth(f: Faults, from: nat, to: nat) {
    forall n: nat | from <= n < to :: f.calls(n) == Fine
  }

  /** No call fails up to some point, and none from there on. */
  lemma SmoothSplits(f: Faults)
    ensures forall n: nat :: Smooth(f, n, n)
    ensures forall n: nat :: f.calls(n) == Fine <==> Smooth(f, n, n + 1)
    ensures forall a: nat, b: nat, c: nat | a <= b <= c && Smooth(f, a, b) :: Smooth(f, b, c) <==> Smooth(f, a, c)
    ensures forall a: nat, b: nat, c: nat | a <= b <= c && !Smooth(f, a, b) :: !Smooth(f, a, c)
  {
  }

  /** The same, for calls from one point on. */
  lemma SmoothFrom(f: Faults, a: nat)
    ensures Smooth(f, a, a)
    ensures forall b: nat, c: nat {:trigger Smooth(f, b, c)} | a <= b <= c ::
              Smooth(f, a, c) <==> Smooth(f, a, b) && Smooth(f, b, c)
  {
  }

  /** The objects that the canary has left. */
  function Traces(objects: map<Key, Payload>, c: Canary): set<Key> {
    set k | k in objects && (|| k in {c.stateKey, c.blobKey} || k.section == Quarantine(c.digest)
                             || (IsMetadata(k) && Mentions(objects[k], c.digest)))
  }

  predicate IsReadable(objects: map<Key, Payload>, unreadable: set<Key>, k: Key) {
    k in objects && k !in unreadable
  }

  /** The traces that a cleanup does not see.  With the state document it deletes the blob, the
      manifest and the index unseen; without it nothing but the quarantine. */
  function Overlooked(objects: map<Key, Payload>, c: Canary, unreadable: set<Key>): set<Key> {
    if IsReadable(objects, unreadable, c.stateKey) then
      set k | k in Traces(objects, c) && k in unreadable && IsMetadata(k) && k !in {c.manifestKey, IndexKey(c.generation)}
    else
      set k | k in Traces(objects, c) && k in unreadable && k.section != Quarantine(c.digest)
  }

  /** The two refusals of a cleanup: the latest generation is not what the state document says,
      or cannot be read, or is the canary's although there seems to be no state document. */
  predicate Refuses(objects: map<Key, Payload>, c: Canary, f: Faults) {
    if IsReadable(objects, f.unreadable, c.stateKey) then
      LATEST in f.unreadable || f.unconfirmed
    else
      && IsReadable(objects, f.unreadable, LATEST) && objects[LATEST] == Generation(c.generation)
      && IsReadable(objects, f.unreadable, IndexKey(c.generation))
      && Mentions(objects[IndexKey(c.generation)], c.digest)
  }

  /** What a cleanup that saw no state document deletes. */
  function SweptBlindly(objects: map<Key, Payload>, c: Canary, unreadable: set<Key>): set<Key> {
    set k | k in Traces(objects, c) && k != c.stateKey && (k in unreadable ==> k.section == Quarantine(c.digest))
  }

  /** What a cleanup with the state document deletes. */
  function Swept(objects: map<Key, Payload>, c: Canary, unreadable: set<Key>): set<Key> {
    set k | k in Traces(objects, c) + {c.manifestKey, IndexKey(c.generation)}
            && (k in unreadable && IsMetadata(k) ==> k in {c.manifestKey, IndexKey(c.generation)})
  }

  lemma BlindSweepLeaves(objects: map<Key, Payload>, c: Canary, unreadable: set<Key>)
    requires IsWellKeyed(c) && !IsReadable(objects, unreadable, c.stateKey)
    ensures Traces(objects - SweptBlindly(objects, c, unreadable), c) == Overlooked(objects, c, unreadable)
  {
  }

  lemma SweepLeaves(objects: map<Key, Payload>, c: Canary, unreadable: set<Key>)
    requires IsWellKeyed(c) && IsReadable(objects, unreadable, c.stateKey)
    ensures Traces(objects - Swept(objects, c, unreadable), c) == Overlooked(objects, c, unreadable)
  {
  }

  /** Which generation is the latest is no trace, nor does it change what is overlooked. */
  lemma LatestIsNoTrace(objects: map<Key, Payload>, c: Canary, unreadable: set<Key>, generation: nat)
    requires IsWellKeyed(c) && LATEST in objects
    ensures var objects' := objects[LATEST := Generation(generation)];
            && Traces(objects', c) == Traces(objects, c)
            && Overlooked(objects', c, unreadable) == Overlooked(objects, c, unreadable)
            && Swept(objects', c, unreadable) == Swept(objects, c, unreadable)
  {
  }

  lemma RefusesExactly(objects: map<Key, Payload>, c: Canary, f: Faults)
    requires IsReadable(objects, f.unreadable, c.stateKey)
    ensures Refuses(objects, c, f) <==> LATEST in f.unreadable || f.unconfirmed
  {
  }

  lemma StaysReadable(objects: map<Key, Payload>, c: Canary, unreadable: set<Key>)
    requires IsReadable(objects, unreadable, c.stateKey)
    ensures IsReadable(objects[LATEST := Generation(c.original)], unreadable, c.stateKey)
  {
  }

  lemma LatestIsReadable(objects: map<Key, Payload>, unreadable: set<Key>)
    requires LATEST in objects && LATEST !in unreadable
    ensures IsReadable(objects, unreadable, LATEST)
  {
  }

  /** Where the state document and the latest generation can be read, nothing is refused. */
  lemma ReadableIsNotRefused(o: Stores, objects: map<Key, Payload>, c: Canary, f: Faults)
    requires Fresh(o, c) && ObjectsDisturbed(o, objects, c)
    requires {c.stateKey, LATEST} !! f.unreadable && !f.unconfirmed
    ensures !Refuses(objects, c, f)
  {
  }

  /** Whatever a stopped preparation wrote, a cleanup finds it: the state document and the latest
      generation can be read, and no metadata but the canary's own two objects, whose keys the
      document names, and such as was there before, cannot. */
  ghost predicate SeesAll(o: Stores, c: Canary, f: Faults) {
    && {c.stateKey, LATEST} !! f.unreadable && !f.unconfirmed
    && forall k <- f.unreadable | IsMetadata(k) :: k in {c.manifestKey, IndexKey(c.generation)} || k in o.objects
  }

  lemma NothingIsOverlooked(o: Stores, objects: map<Key, Payload>, c: Canary, f: Faults)
    requires Fresh(o, c) && ObjectsDisturbed(o, objects, c) && c.stateKey in objects && SeesAll(o, c, f)
    ensures !Refuses(objects, c, f) && Overlooked(objects, c, f.unreadable) == {}
  {
    ReadableIsNotRefused(o, objects, c, f);
    MentionersAreNew(o, objects, c);
  }

  /** The objects are the original ones exactly when no trace is left. */
  lemma OriginalIsTraceless(o: Stores, objects: map<Key, Payload>, c: Canary)
    requires Fresh(o, c) && ObjectsDisturbed(o, objects, c)
    ensures objects == o.objects <==> Traces(objects, c) == {}
  {
    if Traces(objects, c) == {} {
      forall k <- objects
        ensures k.section != Quarantine(c.digest) && !(IsMetadata(k) && Mentions(objects[k], c.digest))
        ensures k !in {c.stateKey, c.blobKey}
      {
        assert k !in Traces(objects, c);
      }
      TracelessIsOriginal(o, objects, c);
    }
  }

  /******* The benchmark *******/

  class Benchmark {
    var objects: map<Key, Payload>
    var artifacts: map<nat, string>
    var registry: map<nat, set<Digest>>
    /** The number of calls made in this run. */
    var made: nat

    /** The stores before the canary was prepared. */
    ghost const o: Stores
    const c: Canary

    function Present(): Stores
      reads this
    {
      Stores(objects, artifacts, registry)
    }

    ghost predicate Valid()
      reads this
    {
      Fresh(o, c) && Disturbed(o, Present(), c)
    }

    constructor (objects: map<Key, Payload>, artifacts: map<nat, string>, registry: map<nat, set<Digest>>, c: Canary)
      requires Fresh(Stores(objects, artifacts, registry), c)
      ensures Valid() && Present() == o == Stores(objects, artifacts, registry) && this.c == c
    {
      this.objects, this.artifacts, this.registry, this.c := objects, artifacts, registry, c;
      o, made := Stores(objects, artifacts, registry), 0;
      new;
      UndisturbedIsDisturbed(o, c);
    }

    /******* Single calls *******/

    /** What becomes of the next call. */
    method Call(f: Faults) returns (fault: Fault)
      modifies this`made
      ensures fault == f.calls(old(made)) && made == old(made) + 1
    {
      fault := f.calls(made);
      made := made + 1;
    }

    /** An object, or nothing: a read that fails looks like a missing object. */
    function ReadObject(k: Key, f: Faults): Option<Payload>
      reads this
    {
      if IsReadable(objects, f.unreadable, k) then Some(objects[k]) else None
    }

    /** The bytes of an object, or nothing; only a body that breaks off raises. */
    method ReadBytes(k: Key, f: Faults) returns (r: Flow<Option<Payload>>)
      modifies this`made
      ensures made == old(made) + if IsReadable(objects, f.unreadable, k) then 1 else 0
      ensures r.Returned? <==> Smooth(f, old(made), made)
      ensures r.Returned? ==> r.value == ReadObject(k, f)
    {
      var found := ReadObject(k, f);
      if found.None? {
        return Returned(None);
      }
      var fault := Call(f);
      r := if fault == Fine then Returned(found) else Raised;
    }

    method PutObject(k: Key, p: Payload, f: Faults) returns (r: Flow<Unit>)
      requires Valid() && IsFair(o, objects, c, k, p)
      modifies this`objects, this`made
      ensures Valid() && made == old(made) + 1
      ensures r.Returned? <==> f.calls(old(made)) == Fine
      ensures objects == if f.calls(old(made)) == Lost then old(objects) else old(objects)[k := p]
    {
      PutKeeps(o, objects, c, k, p);
      var fault := Call(f);
      if fault != Lost {
        objects := objects[k := p];
      }
      r := if fault == Fine then Returned(Unit) else Raised;
    }

    method DeleteObject(k: Key, f: Faults) returns (r: Flow<Unit>)
      requires Valid() && MayDelete(o, objects, c, k)
      modifies this`objects, this`made
      ensures Valid() && made == old(made) + 1
      ensures r.Returned? <==> f.calls(old(made)) == Fine
      ensures objects == if f.calls(old(made)) == Lost then old(objects) else old(objects) - {k}
    {
      DeleteKeeps(o, objects, c, k);
      var fault := Call(f);
      if fault != Lost {
        objects := objects - {k};
      }
      r := if fault == Fine then Returned(Unit) else Raised;
    }

    method ArtifactExists(key: nat, f: Faults) returns (r: Flow<bool>)
      modifies this`made
      ensures made == old(made) + 1 && (r.Returned? <==> f.calls(old(made)) == Fine)
      ensures r.Returned? ==> r.value == (key in artifacts)
    {
      var fault := Call(f);
      r := if fault == Fine then Returned(key in artifacts) else Raised;
    }

    method UploadArtifact(f: Faults) returns (r: Flow<Unit>)
      requires Valid()
      modifies this`artifacts, this`made
      ensures Valid() && made == old(made) + 1
      ensures r.Returned? <==> f.calls(old(made)) == Fine
      ensures artifacts == if f.calls(old(made)) == Lost then old(artifacts) else old(artifacts)[c.artifactKey := c.digest]
    {
      ArtifactKeeps(o, artifacts, c);
      var fault := Call(f);
      if fault != Lost {
        artifacts := artifacts[c.artifactKey := c.digest];
      }
      r := if fault == Fine then Returned(Unit) else Raised;
    }

    method DeleteArtifact(key: nat, f: Faults) returns (r: Flow<Unit>)
      requires Valid() && key == c.artifactKey
      modifies this`artifacts, this`made
      ensures Valid() && made == old(made) + 1
      ensures r.Returned? <==> f.calls(old(made)) == Fine
      ensures artifacts == if f.calls(old(made)) == Lost then old(artifacts) else old(artifacts) - {key}
    {
      ArtifactKeeps(o, artifacts, c);
      var fault := Call(f);
      if fault != Lost {
        artifacts := artifacts - {key};
      }
      r := if fault == Fine then Returned(Unit) else Raised;
    }

    method AnnounceManifest(f: Faults) returns (r: Flow<Unit>)
      requires Valid()
      modifies this`registry, this`made
      ensures Valid() && made == old(made) + 1
      ensures r.Returned? <==> f.calls(old(made)) == Fine
      ensures registry == if f.calls(old(made)) == Lost then old(registry) else old(registry)[c.manifestId := {c.digest}]
    {
      var fault := Call(f);
      if fault != Lost {
        registry := registry[c.manifestId := {c.digest}];
      }
      r := if fault == Fine then Returned(Unit) else Raised;
    }

    method RemoveManifest(m: nat, f: Faults) returns (r: Flow<Unit>)
      requires Valid() && m !in o.registry
      modifies this`registry, this`made
      ensures Valid() && made == old(made) + 1
      ensures r.Returned? <==> f.calls(old(made)) == Fine
      ensures registry == if f.calls(old(made)) == Lost then old(registry) else old(registry) - {m}
    {
      var fault := Call(f);
      if fault != Lost {
        registry := registry - {m};
      }
      r := if fault == Fine then Returned(Unit) else Raised;
    }

    /** The registered manifests that list the digest. */
    method SyntheticIds(digest: Digest, f: Faults) returns (r: Flow<set<nat>>)
      modifies this`made
      ensures made == old(made) + 1 && (r.Returned? <==> f.calls(old(made)) == Fine)
      ensures r.Returned? ==> r.value == set m | m in registry && digest in registry[m]
    {
      var fault := Call(f);
      r := if fault == Fine then Returned(set m | m in registry && digest in registry[m]) else Raised;
    }

    /** One page of a listing below a prefix: what lies after the cursor, up to some key.  A
        call that goes wrong raises, or the page lacks the cursor it should have. */
    method ListPage(section: Section, after: int, f: Faults) returns (r: Flow<(set<Key>, bool, Option<nat>)>)
      requires after >= -1
      modifies this`made
      ensures made == old(made) + 1
      ensures r.Raised? <==> f.calls(old(made)) == Lost
      ensures r.Returned? ==>
                var (page, truncated, next) := r.value;
                && (truncated && next.None? <==> f.calls(old(made)) == Late)
                && page <= Stretch(objects, section, after, None)
                && (!truncated ==> page == Stretch(objects, section, after, None) && next.None?)
                && (next.Some? ==>
                      && page == Stretch(objects, section, after, next)
                      && next.value > after && exists k <- objects :: k.number > next.value)
    {
      var fault := Call(f);
      if fault == Lost {
        return Raised;
      }
      var cut: nat := *;
      if cut <= after {
        cut := after + 1;
      }
      var page := Stretch(objects, section, after, Some(cut));
      var isMore := exists k <- objects :: k.section == section && k.number > cut;
      r := Returned((page, isMore || fault == Late, if isMore && fault == Fine then Some(cut) else None));
    }

    /******* Operations *******/

    /** There is no sign of an earlier canary, and the latest generation is the original one. */
    predicate MayBegin(f: Faults)
      reads this
    {
      && !IsReadable(objects, f.unreadable, c.stateKey) && !IsReadable(objects, f.unreadable, c.blobKey)
      && ReadObject(LATEST, f) == Some(Generation(c.original))
    }

    /** Publishes and corrupts the canary.  Wherever it stops, the store stays restorable.
        `altered` when the blob has changed by the end; `dies` when the process ends with the
        first error, before it takes back what it did.  Otherwise a failure after the state
        document was written is taken back by a cleanup, and a failure to write it by the
        deletion of the artifact; a failure before leaves at most the artifact. */
    method PrepareCorruption(f: Faults, altered: bool, dies: bool, afterwards: Faults) returns (r: Flow<Unit>)
      requires Valid()
      modifies this
      ensures Valid()
      ensures r.Returned? <==>
                && old(MayBegin(f)) && c.artifactKey !in old(artifacts)
                && {c.blobKey, c.manifestKey, IndexKey(c.generation)} !! f.unreadable && !altered
                && Smooth(f, 0, 11)
      ensures r.Returned? ==>
                && objects == Published(old(objects)[c.stateKey := StateDoc(c)], c)
                && artifacts == old(artifacts)[c.artifactKey := c.digest] && registry == old(registry)[c.manifestId := {c.digest}]
      ensures !old(MayBegin(f)) ==> Present() == old(Present())
      ensures old(MayBegin(f)) && (c.artifactKey in old(artifacts) || !Smooth(f, 0, 3)) ==>
                Present() == old(Present()).(artifacts := Uploaded(old(artifacts), c, f))
      ensures old(MayBegin(f)) && c.artifactKey !in old(artifacts) && Smooth(f, 0, 3) && f.calls(3) != Fine ==>
                && objects == (if f.calls(3) == Lost then old(objects) else old(objects)[c.stateKey := StateDoc(c)])
                && artifacts == (if dies || f.calls(4) == Lost then old(artifacts)[c.artifactKey := c.digest] else old(artifacts))
                && registry == old(registry)
      ensures r.Raised? && old(MayBegin(f)) && c.artifactKey !in old(artifacts) && Smooth(f, 0, 4) && !dies ==>
                Smooth(afterwards, 0, made) && SeesAll(o, c, afterwards) ==> Present() == o
    {
      SmoothSplits(f);
      hide Smooth;
      made := 0;
      if ReadObject(c.stateKey, f).Some? || ReadObject(c.blobKey, f).Some? {
        return Raised;
      }
      if ReadObject(LATEST, f) != Some(Generation(c.original)) {
        return Raised;
      }
      assert old(MayBegin(f));
      var uploaded := UploadFresh(f);
      if uploaded.Raised? {
        return Raised;
      }
      var stated := PutObject(c.stateKey, StateDoc(c), f);
      if stated.Raised? {
        if !dies {
          var _ := DeleteArtifact(c.artifactKey, f);
        }
        return Raised;
      }
      var published := PublishCanary(f, altered);
      if published.Raised? {
        if !dies {
          TakeBackPublication(afterwards);
        }
        return Raised;
      }
      r := Returned(Unit);
    }

    /** The cleanup that follows a failed publication; its own failure is not reported. */
    method TakeBackPublication(afterwards: Faults)
      requires Valid() && c.stateKey in objects
      modifies this
      ensures Valid()
      ensures Smooth(afterwards, 0, made) && SeesAll(o, c, afterwards) ==> Present() == o
    {
      hide Smooth, SeesAll, Refuses, Overlooked, Traces, Fresh, Disturbed;
      if SeesAll(o, c, afterwards) {
        StaysDisturbed();
        NothingIsOverlooked(o, objects, c, afterwards);
      }
      var _ := CleanupCorruption(afterwards);
    }

    lemma StaysDisturbed()
      requires Valid()
      ensures Fresh(o, c) && ObjectsDisturbed(o, objects, c)
    {
    }

    /** Uploads the coordinator's artifact, which must not be there yet. */
    method UploadFresh(f: Faults) returns (r: Flow<Unit>)
      requires Valid() && made == 0
      modifies this`artifacts, this`made
      ensures Valid() && (r.Returned? ==> made == 3)
      ensures r.Returned? <==> c.artifactKey !in old(artifacts) && Smooth(f, 0, 3)
      ensures artifacts == Uploaded(old(artifacts), c, f)
    {
      SmoothSplits(f);
      hide Smooth;
      var isStale :- ArtifactExists(c.artifactKey, f);
      if isStale {
        return Raised;
      }
      var _ :- UploadArtifact(f);
      var isThere :- ArtifactExists(c.artifactKey, f);
      r := if isThere then Returned(Unit) else Raised;
    }

    method PublishCanary(f: Faults, altered: bool) returns (r: Flow<Unit>)
      requires Valid() && c.stateKey in objects && made == 4
      modifies this`objects, this`registry, this`made
      ensures Valid() && c.stateKey in objects
      ensures r.Returned? <==>
                Smooth(f, 4, 11) && {c.blobKey, c.manifestKey, IndexKey(c.generation)} !! f.unreadable && !altered
      ensures r.Returned? ==> objects == Published(old(objects), c) && registry == old(registry)[c.manifestId := {c.digest}]
    {
      SmoothSplits(f);
      CanaryIsFair(o, c);
      hide Smooth, Fresh, Disturbed, Touchable;
      var _ :- PublishObjects(f);
      var _ :- AnnounceManifest(f);
      var _ :- PutObject(LATEST, Generation(c.generation), f);
      var blob :- ReadBytes(c.blobKey, f);
      r := if altered || blob != Some(Content("corrupt", {})) then Raised else Returned(Unit);
    }

    /** Writes the blob, the manifest and the index, and reads each back. */
    method PublishObjects(f: Faults) returns (r: Flow<Unit>)
      requires Valid() && made == 4
      modifies this`objects, this`made
      ensures old(objects.Keys) <= objects.Keys
      ensures Valid() && 4 <= made <= 8 && (r.Returned? ==> made == 8)
      ensures r.Returned? <==> Smooth(f, 4, 8) && {c.blobKey, c.manifestKey, IndexKey(c.generation)} !! f.unreadable
      ensures r.Returned? ==>
                objects == old(objects)[c.blobKey := Content("corrupt", {})][c.manifestKey := Content("manifest", {c.digest})]
                                       [IndexKey(c.generation) := Content("index", {c.digest})]
    {
      SmoothSplits(f);
      CanaryIsFair(o, c);
      hide Smooth, Fresh, Disturbed, Touchable;
      var _ :- PutObject(c.blobKey, Content("corrupt", {}), f);
      var blob :- ReadBytes(c.blobKey, f);
      if blob != Some(Content("corrupt", {})) {
        return Raised;
      }
      var _ :- PutObject(c.manifestKey, Content("manifest", {c.digest}), f);
      if ReadObject(c.manifestKey, f).None? {
        return Raised;
      }
      var _ :- PutObject(IndexKey(c.generation), Content("index", {c.digest}), f);
      r := if ReadObject(IndexKey(c.generation), f).None? then Raised else Returned(Unit);
    }

    /** Puts the valid bytes back after the quarantine was seen. */
    method ObserveCorruption(f: Faults, seen: bool) returns (r: Flow<Unit>)
      requires Valid()
      modifies this`objects, this`made
      ensures Valid()
      ensures r.Returned? <==>
                && old(IsReadable(objects, f.unreadable, c.stateKey)) && seen && c.blobKey !in f.unreadable
                && old(ReadObject(c.blobKey, f)) != Some(Content("valid", {})) && Smooth(f, 0, made)
      ensures objects == old(objects) || objects == old(objects)[c.blobKey := Content("valid", {})]
      ensures objects != old(objects) ==>
                seen && old(IsReadable(objects, f.unreadable, c.stateKey)) && old(ReadObject(c.blobKey, f)) != Some(Content("valid", {}))
      ensures r.Returned? ==> objects == old(objects)[c.blobKey := Content("valid", {})]
    {
      SmoothSplits(f);
      hide Smooth;
      made := 0;
      var state :- ReadBytes(c.stateKey, f);
      if state.None? {
        return Raised;
      }
      var blob :- ReadBytes(c.blobKey, f);
      if blob == Some(Content("valid", {})) || !seen {
        return Raised;
      }
      var _ :- PutObject(c.blobKey, Content("valid", {}), f);
      var again :- ReadBytes(c.blobKey, f);
      r := if again == Some(Content("valid", {})) then Returned(Unit) else Raised;
    }

    /** Takes everything back, and may be run again wherever it stops.  It raises exactly when a
        call fails or it refuses; when it returns, what it overlooked is all that is left of the
        canary, so every store is as it was before exactly when it overlooked nothing. */
    method CleanupCorruption(f: Faults) returns (r: Flow<Unit>)
      requires Valid()
      modifies this
      ensures Valid()
      ensures r.Raised? <==> !Smooth(f, 0, made) || Refuses(old(objects), c, f)
      ensures r.Returned? ==> Traces(objects, c) == Overlooked(old(objects), c, f.unreadable)
      ensures r.Returned? ==> (Present() == o <==> Overlooked(old(objects), c, f.unreadable) == {})
    {
      SmoothSplits(f);
      hide Smooth;
      made := 0;
      var state :- ReadBytes(c.stateKey, f);
      if state.None? {
        r := CleanupWithoutState(f);
      } else {
        r := CleanupWithState(state.value.canary, f);
      }
      OriginalIsTraceless(o, objects, c);
    }

    /** A write of the worker that runs the benchmark's job. */
    method WorkerPuts(k: Key, p: Payload)
      requires Valid()
      requires k == c.blobKey || k.section == Quarantine(c.digest) || (IsMetadata(k) && k !in o.objects && Mentions(p, c.digest))
      modifies this`objects
      ensures Valid() && objects == old(objects)[k := p]
    {
      WorkerWriteKeeps(o, objects, c, k, p);
      objects := objects[k := p];
    }

    /******* Cleanup *******/

    /** Deletes some keys, one by one. */
    method DeleteAll(keys: set<Key>, f: Faults) returns (r: Flow<Unit>)
      requires Valid() && c.stateKey !in keys && forall k <- keys :: Touchable(o, c, k) && k != LATEST
      modifies this`objects, this`made
      ensures Valid() && made >= old(made)
      ensures r.Returned? <==> Smooth(f, old(made), made)
      ensures r.Returned? ==> objects == old(objects) - keys
    {
      var todo := keys;
      while todo != {}
        invariant Valid() && todo <= keys && objects == old(objects) - (keys - todo)
        invariant made >= old(made) && Smooth(f, old(made), made)
        decreases todo
      {
        var k :| k in todo;
        var _ :- DeleteObject(k, f);
        todo := todo - {k};
      }
      r := Returned(Unit);
    }

    /** Deletes every quarantined object of the canary, page by page. */
    method DeleteQuarantineObjects(digest: Digest, f: Faults) returns (r: Flow<nat>)
      requires Valid() && digest == c.digest
      modifies this`objects, this`made
      ensures Valid() && made >= old(made)
      ensures r.Returned? <==> Smooth(f, old(made), made)
      ensures r.Returned? ==> objects == old(objects) - Below(old(objects), Quarantine(digest))
    {
      SmoothSplits(f);
      QuarantineMayGo(o, objects, c);
      ghost var bound := Bound(objects.Keys);
      NonePaged(objects, Quarantine(digest));
      hide Fresh, Disturbed, Smooth, Upto, Touchable, Below;
      var deleted: nat, after: int := 0, -1;
      while true
        invariant Valid() && after >= -1 && made >= old(made) && Smooth(f, old(made), made)
        invariant objects == old(objects) - Upto(old(objects), Quarantine(digest), after)
        decreases bound - after
      {
        var listed :- ListPage(Quarantine(digest), after, f);
        var (page, truncated, next) := listed;
        OneMorePage(old(objects), objects, Quarantine(digest), after, next);
        var _ :- DeleteAll(page, f);
        deleted := deleted + |page|;
        if !truncated {
          break;
        }
        if next.None? {
          return Raised;
        }
        after := next.value;
      }
      r := Returned(deleted);
    }

    /** The metadata objects below a prefix that mention the digest, but for failed reads. */
    method MetadataObjectsReferencing(section: Section, digest: Digest, f: Faults) returns (r: Flow<set<Key>>)
      requires section in {Manifests, Indexes, PendingAnnouncements}
      modifies this`made
      ensures made >= old(made) && (r.Returned? <==> Smooth(f, old(made), made))
      ensures r.Returned? ==> r.value == MentionersIn(objects, section, digest) - f.unreadable
    {
      SmoothSplits(f);
      hide Smooth;
      var matches: set<Key> := {};
      var after: int := -1;
      ghost var bound := Bound(objects.Keys);
      while true
        invariant after >= -1 && made >= old(made) && Smooth(f, old(made), made)
        invariant matches == set k | k in MentionersIn(objects, section, digest) - f.unreadable && k.number <= after
        decreases bound - after
      {
        var listed :- ListPage(section, after, f);
        var (page, truncated, next) := listed;
        var found :- MentionersOf(page, digest, f);
        matches := matches + found;
        if !truncated {
          break;
        }
        if next.None? {
          return Raised;
        }
        after := next.value;
      }
      r := Returned(matches);
    }

    /** Reads the objects of a page, one by one. */
    method MentionersOf(page: set<Key>, digest: Digest, f: Faults) returns (r: Flow<set<Key>>)
      requires page <= objects.Keys
      modifies this`made
      ensures made >= old(made) && (r.Returned? <==> Smooth(f, old(made), made))
      ensures r.Returned? ==>
                r.value == set k | k in page && k != LATEST && k !in f.unreadable && Mentions(objects[k], digest)
    {
      SmoothSplits(f);
      hide Smooth;
      var found: set<Key> := {};
      var todo := page;
      while todo != {}
        invariant todo <= page && made >= old(made) && Smooth(f, old(made), made)
        invariant found == set k | k in page - todo && k != LATEST && k !in f.unreadable && Mentions(objects[k], digest)
        decreases todo
      {
        var k :| k in todo;
        if k != LATEST {
          var payload :- ReadBytes(k, f);
          if payload.Some? && Mentions(payload.value, digest) {
            found := found + {k};
          }
        }
        todo := todo - {k};
      }
      r := Returned(found);
    }

    method MetadataKeys(digest: Digest, f: Faults) returns (r: Flow<set<Key>>)
      modifies this`made
      ensures made >= old(made) && (r.Returned? <==> Smooth(f, old(made), made))
      ensures r.Returned? ==> r.value == Mentioners(objects, digest) - f.unreadable
    {
      var manifests :- MetadataObjectsReferencing(Manifests, digest, f);
      var indexes :- MetadataObjectsReferencing(Indexes, digest, f);
      var pending :- MetadataObjectsReferencing(PendingAnnouncements, digest, f);
      r := Returned(manifests + indexes + pending);
    }

    method RemoveManifests(ids: set<nat>, f: Faults) returns (r: Flow<Unit>)
      requires Valid() && forall m <- ids :: m !in o.registry
      modifies this`registry, this`made
      ensures Valid() && made >= old(made)
      ensures r.Returned? <==> Smooth(f, old(made), made)
      ensures r.Returned? ==> registry == old(registry) - ids
    {
      var todo := ids;
      while todo != {}
        invariant Valid() && todo <= ids && registry == old(registry) - (ids - todo)
        invariant made >= old(made) && Smooth(f, old(made), made)
        decreases todo
      {
        var m :| m in todo;
        var _ :- RemoveManifest(m, f);
        todo := todo - {m};
      }
      r := Returned(Unit);
    }

    /** Takes the canary's manifests out of the registry, and this one in any case. */
    method ClearRegistry(digest: Digest, also: set<nat>, f: Faults) returns (r: Flow<Unit>)
      requires Valid() && digest == c.digest && also <= {c.manifestId}
      modifies this`registry, this`made
      ensures Valid() && made >= old(made)
      ensures r.Returned? <==> Smooth(f, old(made), made)
      ensures r.Returned? ==> registry == o.registry
    {
      SmoothSplits(f);
      hide Smooth;
      var ids :- SyntheticIds(digest, f);
      SyntheticIsNew(o, registry, c);
      var _ :- RemoveManifests(ids + also, f);
      TracelessRegistry(o, registry, c);
      r := Returned(Unit);
    }

    method ClearBlob(f: Faults) returns (r: Flow<Unit>)
      requires Valid()
      modifies this`objects, this`made
      ensures Valid() && made >= old(made)
      ensures r.Returned? <==> Smooth(f, old(made), made)
      ensures r.Returned? ==> objects == old(objects) - (if c.blobKey in f.unreadable then {} else {c.blobKey})
    {
      if ReadObject(c.blobKey, f).Some? {
        var _ :- DeleteObject(c.blobKey, f);
      }
      r := Returned(Unit);
    }

    method ClearArtifact(f: Faults) returns (r: Flow<Unit>)
      requires Valid()
      modifies this`artifacts, this`made
      ensures Valid() && made >= old(made)
      ensures r.Returned? <==> Smooth(f, old(made), made)
      ensures r.Returned? ==> artifacts == o.artifacts
    {
      SmoothSplits(f);
      hide Smooth;
      var isThere :- ArtifactExists(c.artifactKey, f);
      if isThere {
        var _ :- DeleteArtifact(c.artifactKey, f);
      }
      TracelessArtifacts(o, artifacts, c);
      r := Returned(Unit);
    }

    method CleanupWithoutState(f: Faults) returns (r: Flow<Unit>)
      requires Valid() && !IsReadable(objects, f.unreadable, c.stateKey)
      modifies this
      ensures Valid() && made >= old(made)
      ensures r.Raised? <==> !Smooth(f, old(made), made) || Refuses(old(objects), c, f)
      ensures r.Returned? ==> artifacts == o.artifacts && registry == o.registry
      ensures r.Returned? ==> Traces(objects, c) == Overlooked(old(objects), c, f.unreadable)
    {
      SmoothFrom(f, made);
      hide Smooth;
      var latest :- ReadBytes(LATEST, f);
      var metadata :- MetadataKeys(c.digest, f);
      MentionersAreNew(o, objects, c);
      if latest.Some? && latest.value.Generation? && IndexKey(latest.value.number) in metadata {
        return Raised;
      }
      assert !Refuses(objects, c, f);
      var _ :- ClearRegistry(c.digest, {}, f);
      MentionersMayGo(o, objects, c);
      var _ :- DeleteAll(metadata, f);
      var _ :- ClearBlob(f);
      var _ :- ClearArtifact(f);
      var _ :- DeleteQuarantineObjects(c.digest, f);
      SweepsBlindly(old(objects), c, f.unreadable, objects);
      BlindSweepLeaves(old(objects), c, f.unreadable);
      r := Returned(Unit);
    }

    /** Makes the original generation the latest one again, unless the inventory has changed. */
    method RestoreLatest(state: Canary, f: Faults) returns (r: Flow<Unit>)
      requires Valid() && state == c
      modifies this`objects, this`made
      ensures Valid() && made >= old(made)
      ensures r.Returned? <==> Smooth(f, old(made), made) && LATEST !in f.unreadable
      ensures r.Returned? ==> objects == old(objects)[LATEST := Generation(c.original)]
    {
      SmoothSplits(f);
      hide Smooth;
      var latest :- ReadBytes(LATEST, f);
      if latest == Some(Generation(state.generation)) {
        r := PutObject(LATEST, Generation(state.original), f);
      } else {
        r := if latest == Some(Generation(state.original)) then Returned(Unit) else Raised;
      }
    }

    method CleanupWithState(state: Canary, f: Faults) returns (r: Flow<Unit>)
      requires Valid() && state == c && IsReadable(objects, f.unreadable, c.stateKey)
      modifies this
      ensures Valid() && made >= old(made)
      ensures r.Raised? <==> !Smooth(f, old(made), made) || Refuses(old(objects), c, f)
      ensures r.Returned? ==> artifacts == o.artifacts && registry == o.registry
      ensures r.Returned? ==> Traces(objects, c) == Overlooked(old(objects), c, f.unreadable)
    {
      SmoothFrom(f, made);
      LatestIsNoTrace(objects, c, f.unreadable, c.original);
      RefusesExactly(objects, c, f);
      StaysReadable(objects, c, f.unreadable);
      hide Smooth, Fresh, Disturbed, Traces, Overlooked, Swept, Refuses, IsReadable;
      var _ :- RestoreLatest(state, f);
      ghost var restored := objects;
      var _ :- TakeBack(state, f);
      SweepLeaves(restored, c, f.unreadable);
      LatestIsReadable(objects, f.unreadable);
      r := ConfirmLatest(state, f);
    }

    /** Reads once more that the original generation is the latest one. */
    method ConfirmLatest(state: Canary, f: Faults) returns (r: Flow<Unit>)
      requires state == c && IsReadable(objects, f.unreadable, LATEST) && objects[LATEST] == Generation(c.original)
      modifies this`made
      ensures made >= old(made)
      ensures r.Returned? <==> Smooth(f, old(made), made) && !f.unconfirmed
    {
      if f.unconfirmed {
        return Raised;
      }
      var latest :- ReadBytes(LATEST, f);
      r := if latest == Some(Generation(state.original)) then Returned(Unit) else Raised;
    }

    method TakeBack(state: Canary, f: Faults) returns (r: Flow<Unit>)
      requires Valid() && state == c && IsReadable(objects, f.unreadable, c.stateKey)
      requires LATEST in objects && objects[LATEST] == Generation(c.original)
      modifies this
      ensures Valid() && made >= old(made)
      ensures r.Returned? <==> Smooth(f, old(made), made)
      ensures r.Returned? ==> artifacts == o.artifacts && registry == o.registry
      ensures r.Returned? ==> objects == old(objects) - Swept(old(objects), c, f.unreadable) && LATEST in objects
                              && objects[LATEST] == Generation(c.original)
    {
      SmoothFrom(f, made);
      hide Smooth, Fresh, Disturbed, Swept;
      var _ :- ClearRegistry(state.digest, {state.manifestId}, f);
      var _ :- TakeArtifactBack(state.artifactKey, f);
      r := DeleteCanary(state, f);
    }

    method TakeArtifactBack(key: nat, f: Faults) returns (r: Flow<Unit>)
      requires Valid() && key == c.artifactKey
      modifies this`artifacts, this`made
      ensures Valid() && made >= old(made)
      ensures r.Returned? <==> Smooth(f, old(made), made)
      ensures r.Returned? ==> artifacts == o.artifacts
    {
      r := DeleteArtifact(key, f);
      if r.Returned? {
        TracelessArtifacts(o, artifacts, c);
      }
    }

    /** Deletes every object of the canary, the state document last. */
    method DeleteCanary(state: Canary, f: Faults) returns (r: Flow<Unit>)
      requires Valid() && state == c && IsReadable(objects, f.unreadable, c.stateKey)
      requires LATEST in objects && objects[LATEST] == Generation(c.original)
      modifies this`objects, this`made
      ensures Valid() && made >= old(made)
      ensures r.Returned? <==> Smooth(f, old(made), made)
      ensures r.Returned? ==> objects == old(objects) - Swept(old(objects), c, f.unreadable) && LATEST in objects
                              && objects[LATEST] == Generation(c.original)
    {
      SmoothFrom(f, made);
      LatestIsThere(o, objects, c);
      LatestStays(objects, c, f.unreadable);
      hide Smooth, Fresh, Disturbed, Swept;
      var _ :- DeleteTraces(state, f);
      StateMayGo(o, objects, c);
      var _ :- DeleteObject(state.stateKey, f);
      SweepsAll(old(objects), c, f.unreadable, objects);
      r := Returned(Unit);
    }

    /** Deletes every object of the canary but the state document. */
    method DeleteTraces(state: Canary, f: Faults) returns (r: Flow<Unit>)
      requires Valid() && state == c
      modifies this`objects, this`made
      ensures Valid() && made >= old(made)
      ensures r.Returned? <==> Smooth(f, old(made), made)
      ensures r.Returned? ==> objects == old(objects) - (Swept(old(objects), c, f.unreadable) - {c.stateKey})
    {
      SmoothFrom(f, made);
      hide Smooth;
      var _ :- DeleteQuarantineObjects(state.digest, f);
      ghost var a := objects;
      MentionersMayGo(o, objects, c);
      var _ :- DeleteAll({state.blobKey, state.manifestKey, IndexKey(state.generation)}, f);
      ghost var b := objects;
      MentionersMayGo(o, objects, c);
      var metadata :- MetadataKeys(state.digest, f);
      var _ :- DeleteAll(metadata, f);
      TracesAreSwept(old(objects), a, b, c, f.unreadable, objects);
      r := Returned(Unit);
    }
  }

  const EXAMPLE := Canary("d", Key(Staging, 0), Key(Blobs, 0), 0, 7, Key(Manifests, 0), 2, 1)
  const ANNOUNCEMENT := Key(PendingAnnouncements, 0)
  const NO_FAULTS := Faults({}, false, _ => Fine)

  /** A canary was prepared, and the worker has announced it. */
  method Announced() returns (benchmark: Benchmark, before: Stores)
    ensures fresh(benchmark) && benchmark.Valid() && benchmark.c == EXAMPLE && benchmark.o == before
    ensures EXAMPLE.stateKey in benchmark.objects
    ensures ANNOUNCEMENT in benchmark.objects && Mentions(benchmark.objects[ANNOUNCEMENT], EXAMPLE.digest)
  {
    before := Stores(map[LATEST := Generation(1), IndexKey(1) := Content("index", {})], map[], map[]);
    benchmark := new Benchmark(before.objects, before.artifacts, before.registry, EXAMPLE);
    var prepared := benchmark.PrepareCorruption(NO_FAULTS, false, false, NO_FAULTS);
    assert prepared.Returned?;
    benchmark.WorkerPuts(ANNOUNCEMENT, Content("pending", {"d"}));
  }

  /** A run in which one read fails: the cleanup returns and leaves the announcement behind, and
      the next one takes it away. */
  method OverlookedAnnouncement() returns (before: Stores, after: Stores, again: Stores)
    ensures after != before && again == before
  {
    hide Fresh, ObjectsDisturbed, RegistryDisturbed, ArtifactsDisturbed, Refuses;
    var benchmark: Benchmark;
    benchmark, before := Announced();
    var faults := NO_FAULTS.(unreadable := {ANNOUNCEMENT});
    assert !Refuses(benchmark.objects, EXAMPLE, faults) by {
      ReadableIsNotRefused(benchmark.o, benchmark.objects, EXAMPLE, faults);
    }
    assert ANNOUNCEMENT in Overlooked(benchmark.objects, EXAMPLE, {ANNOUNCEMENT});
    var cleaned := benchmark.CleanupCorruption(faults);
    assert cleaned.Returned?;
    after := benchmark.Present();
    ReadableIsNotRefused(benchmark.o, benchmark.objects, EXAMPLE, NO_FAULTS);
    assert Overlooked(benchmark.objects, EXAMPLE, {}) == {};
    cleaned := benchmark.CleanupCorruption(NO_FAULTS);
    again := benchmark.Present();
  }

  lemma SyntheticIsNew(o: Stores, registry: map<nat, set<Digest>>, c: Canary)
    requires Fresh(o, c) && RegistryDisturbed(o, registry, c)
    ensures c.manifestId !in o.registry && forall m <- registry | c.digest in registry[m] :: m !in o.registry
  {
    forall m <- registry | c.digest in registry[m] ensures m !in o.registry {
      assert Same(o.registry, registry, m) || m !in o.registry;
    }
  }

  /** What is read of the metadata may be deleted, like the canary's own objects. */
  lemma MentionersMayGo(o: Stores, objects: map<Key, Payload>, c: Canary)
    requires Fresh(o, c) && ObjectsDisturbed(o, objects, c)
    ensures forall k <- Mentioners(objects, c.digest) + {c.blobKey, c.manifestKey, IndexKey(c.generation)} ::
              Touchable(o, c, k) && k != LATEST && k != c.stateKey
  {
    MentionersAreNew(o, objects, c);
  }

  lemma LatestIsThere(o: Stores, objects: map<Key, Payload>, c: Canary)
    requires Fresh(o, c) && ObjectsDisturbed(o, objects, c)
    ensures LATEST in objects && IsWellKeyed(c)
  {
  }

  lemma CanaryIsFair(o: Stores, c: Canary)
    requires Fresh(o, c)
    ensures IsWellKeyed(c)
    ensures forall k <- {c.blobKey, c.manifestKey, IndexKey(c.generation), LATEST} :: Touchable(o, c, k)
  {
  }

  lemma QuarantineMayGo(o: Stores, objects: map<Key, Payload>, c: Canary)
    requires Fresh(o, c)
    ensures forall k: Key | k.section == Quarantine(c.digest) :: Touchable(o, c, k) && k != LATEST && k != c.stateKey
  {
  }

  lemma NonePaged(objects: map<Key, Payload>, section: Section)
    ensures objects == objects - Upto(objects, section, -1)
  {
  }

  lemma OneMorePage(objects: map<Key, Payload>, objects': map<Key, Payload>, section: Section, after: int,
                    next: Option<nat>)
    requires objects' == objects - Upto(objects, section, after) && (next.Some? ==> after < next.value)
    ensures objects' - Stretch(objects', section, after, None) == objects - Below(objects, section)
    ensures next.Some? ==> objects' - Stretch(objects', section, after, next) == objects - Upto(objects, section, next.value)
  {
  }

  lemma StateMayGo(o: Stores, objects: map<Key, Payload>, c: Canary)
    requires LATEST in objects && objects[LATEST] == Generation(c.original) && c.stateKey.section == Staging
    ensures MayDelete(o, objects, c, c.stateKey)
  {
  }

  lemma LatestStays(objects: map<Key, Payload>, c: Canary, unreadable: set<Key>)
    requires IsWellKeyed(c)
    ensures LATEST !in Swept(objects, c, unreadable) && c.stateKey != LATEST
  {
  }

  lemma SweepsBlindly(objects: map<Key, Payload>, c: Canary, unreadable: set<Key>, objects': map<Key, Payload>)
    requires IsWellKeyed(c)
    requires var a := objects - (Mentioners(objects, c.digest) - unreadable);
             var b := a - (if c.blobKey in unreadable then {} else {c.blobKey});
             objects' == b - Below(b, Quarantine(c.digest))
    ensures objects' == objects - SweptBlindly(objects, c, unreadable)
  {
  }

  lemma TracesAreSwept(objects: map<Key, Payload>, a: map<Key, Payload>, b: map<Key, Payload>, c: Canary,
                       unreadable: set<Key>,
                       objects': map<Key, Payload>)
    requires IsWellKeyed(c) && a == objects - Below(objects, Quarantine(c.digest))
    requires b == a - {c.blobKey, c.manifestKey, IndexKey(c.generation)}
    requires objects' == b - (Mentioners(b, c.digest) - unreadable)
    ensures objects' == objects - (Swept(objects, c, unreadable) - {c.stateKey})
  {
  }

  lemma SweepsAll(objects: map<Key, Payload>, c: Canary, unreadable: set<Key>, objects': map<Key, Payload>)
    requires IsReadable(objects, unreadable, c.stateKey) && c.stateKey.section == Staging
    requires objects' == objects - (Swept(objects, c, unreadable) - {c.stateKey}) - {c.stateKey}
    ensures objects' == objects - Swept(objects, c, unreadable)
  {
  }

  /** The artifacts after the upload, which is made unless one is there already or that cannot be
      asked; what goes wrong after it is not taken back. */
  function Uploaded(artifacts: map<nat, string>, c: Canary, f: Faults): map<nat, string> {
    if c.artifactKey in artifacts || f.calls(0) != Fine || f.calls(1) == Lost then artifacts
    else artifacts[c.artifactKey := c.digest]
  }

  /** The objects with the canary's corrupt blob, manifest and index, as the latest generation. */
  function Published(objects: map<Key, Payload>, c: Canary): map<Key, Payload> {
    objects[c.blobKey := Content("corrupt", {})][c.manifestKey := Content("manifest", {c.digest})]
           [IndexKey(c.generation) := Content("index", {c.digest})][LATEST := Generation(c.generation)]
  }

  /** No key has a larger number. */
  ghost function Bound(keys: set<Key>): (bound: nat)
    ensures forall k <- keys :: k.number <= bound
  {
    if keys == {} then 0
    else
      var k :| k in keys;
      var rest := Bound(keys - {k});
      if k.number > rest then k.number else rest
  }

  /** The keys below a prefix that lie after a cursor, as far as another. */
  function Stretch(objects: map<Key, Payload>, section: Section, after: int, last: Option<nat>): set<Key> {
    set k | k in objects && k.section == section && after < k.number && (last.Some? ==> k.number <= last.value)
  }

  ghost function Upto(objects: map<Key, Payload>, section: Section, last: int): set<Key> {
    set k | k in objects && k.section == section && k.number <= last
  }

  /** The keys below a prefix. */
  function Below(objects: map<Key, Payload>, section: Section): set<Key> {
    set k | k in objects && k.section == section
  }

  function MentionersIn(objects: map<Key, Payload>, section: Section, digest: Digest): set<Key> {
    set k | k in objects && k.section == section && k != LATEST && Mentions(objects[k], digest)
  }

  function Mentioners(objects: map<Key, Payload>, digest: Digest): set<Key> {
    set k | k in objects && IsMetadata(k) && Mentions(objects[k], digest)
  }

  /** Only metadata written since then mentions the canary. */
  lemma MentionersAreNew(o: Stores, objects: map<Key, Payload>, c: Canary)
    requires Fresh(o, c) && ObjectsDisturbed(o, objects, c)
    ensures forall k <- objects | IsMetadata(k) && Mentions(objects[k], c.digest) :: k !in o.objects
  {
    forall k <- o.objects | IsMetadata(k) ensures Same(o.objects, objects, k) {
      assert !Touchable(o, c, k);
    }
  }
}
