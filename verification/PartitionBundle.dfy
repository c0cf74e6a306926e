/** The bundle file around an encoded value (`dump_bundle` and `load_bundle` of
    cloud_offload/partition_protocol.py). */
module PartitionBundle {
  import opened Prelude
  import opened PartitionCodec

  const MANIFEST_NAME := "manifest.json"
  const TENSORS_NAME := "tensors.safetensors"
  const BLOBS_PREFIX := "blobs/"
  const MAX_MANIFEST_BYTES: nat := 8 * 1024 * 1024

  datatype Content = Manifest(root: Node) | TensorFile(tensors: Tensors) | BlobFile(bytes: seq<Byte>)

  /** A ZIP archive, as its members in the order of its directory. */
  datatype File = File(name: string, content: Content)

  type Archive = seq<File>

  datatype BundleError =
    | Codec(error: CodecError) | ManifestTooLarge | DuplicateMembers | UnsafePath | NoManifest | InvalidManifest
    | UnexpectedMembers

  /** The parts of a relative path. */
  function Parts(path: string): (parts: seq<string>)
    ensures |parts| > 0
  {
    if path == "" then [""]
    else
      var rest := Parts(path[1..]);
      if path[0] == '/' then [""] + rest else [[path[0]] + rest[0]] + rest[1..]
  }

  predicate Unsafe(name: string) {
    (name != "" && (name[0] == '/' || name[0] == '\\')) || ".." in Parts(name)
  }

  predicate Distinct(archive: Archive) {
    forall i, j | 0 <= i < j < |archive| :: archive[i].name != archive[j].name
  }

  predicate Has(archive: Archive, name: string) {
    exists i :: 0 <= i < |archive| && archive[i].name == name
  }

  function Read(archive: Archive, name: string): Content
    requires Has(archive, name)
  {
    if archive[|archive| - 1].name == name then archive[|archive| - 1].content else Read(archive[..|archive| - 1], name)
  }

  predicate IsBlobMember(name: string) {
    BLOBS_PREFIX <= name
  }

  function ReadBlobs(archive: Archive): Blobs {
    if archive == [] then map[]
    else
      var n := |archive| - 1;
      var before := ReadBlobs(archive[..n]);
      var file := archive[n];
      if IsBlobMember(file.name) && file.content.BlobFile? then before[file.name[|BLOBS_PREFIX|..] := file.content.bytes] else before
  }

  /** `size` is the length of the manifest's JSON text. */
  function LoadBundle(archive: Archive, size: Node -> nat): Result<Value, BundleError> {
    if !Distinct(archive) then Err(DuplicateMembers)
    else if exists f <- archive :: Unsafe(f.name) then Err(UnsafePath)
    else if !Has(archive, MANIFEST_NAME) then Err(NoManifest)
    else
      var manifest := Read(archive, MANIFEST_NAME);
      if !manifest.Manifest? then Err(InvalidManifest)
      else if size(manifest.root) > MAX_MANIFEST_BYTES then Err(ManifestTooLarge)
      else
        var stored := if Has(archive, TENSORS_NAME) then Read(archive, TENSORS_NAME) else TensorFile(map[]);
        if !stored.TensorFile? then Err(InvalidManifest)
        else if exists f <- archive :: f.name != MANIFEST_NAME && f.name != TENSORS_NAME && !IsBlobMember(f.name) then
          Err(UnexpectedMembers)
        else
          match Decode(manifest.root, stored.tensors, ReadBlobs(archive), 0)
          case Ok(v) => Ok(v)
          case Err(e) => Err(Codec(e))
  }

  /** The blobs in the order they were added. */
  function BlobFiles(blobs: Blobs, n: nat): (files: Archive)
    requires forall k: nat | k < n :: BlobName(k) in blobs
    ensures |files| == n
  {
    if n == 0 then []
    else BlobFiles(blobs, n - 1) + [File(BLOBS_PREFIX + BlobName(n - 1), BlobFile(blobs[BlobName(n - 1)]))]
  }

  /** A tree and its side tables, with generated names, that stand for a value. */
  ghost predicate Encodes(root: Node, tensors: Tensors, blobs: Blobs, value: Value) {
    Dense(tensors, TensorName) && Dense(blobs, BlobName) && Decodes(root, tensors, blobs, 0, value)
  }

  /** A dumped bundle loads as the value; a value that cannot be transported, or whose manifest is
      too large, is refused. */
  method DumpBundle(value: Value, size: Node -> nat) returns (r: Result<Archive, BundleError>)
    ensures r.Ok? ==> LoadBundle(r.value, size) == Ok(Norm(value))
    ensures r.Ok? ==> Portable(value, 0) && Count(value) <= MAX_TREE_ITEMS
    ensures r.Err? && Portable(value, 0) && Count(value) <= MAX_TREE_ITEMS ==>
              && r.error == ManifestTooLarge
              && exists root, tensors, blobs :: Encodes(root, tensors, blobs, value) && size(root) > MAX_MANIFEST_BYTES
    ensures r.Err? && !(Portable(value, 0) && Count(value) <= MAX_TREE_ITEMS) ==> r.error.Codec?
  {
    hide LoadBundle, Portable, Count, Norm, Decodes;
    var encoder := new Encoder();
    var root := encoder.Encode(value, 0);
    if root.Err? {
      return Err(Codec(root.error));
    }
    assert Encodes(root.value, encoder.tensors, encoder.blobs, value);
    if size(root.value) > MAX_MANIFEST_BYTES {
      return Err(ManifestTooLarge);
    }
    var archive := [File(MANIFEST_NAME, Manifest(root.value))];
    if encoder.tensors != map[] {
      archive := archive + [File(TENSORS_NAME, TensorFile(encoder.tensors))];
    }
    archive := AddBlobs(archive, root.value, encoder.tensors, encoder.blobs);
    hide Written;
    BundleLoads(root.value, encoder.tensors, encoder.blobs, size, value);
    r := Ok(archive);
  }

  method AddBlobs(head: Archive, ghost root: Node, ghost tensors: Tensors, blobs: Blobs) returns (archive: Archive)
    requires Dense(blobs, BlobName) && head == Head(root, tensors)
    ensures archive == Written(root, tensors, blobs, |blobs|)
  {
    archive := head;
    DenseHas(blobs);
    hide BlobName, Dense, Head;
    for n := 0 to |blobs|
      invariant archive == Written(root, tensors, blobs, n)
    {
      var name := BlobName(n);
      archive := archive + [File(BLOBS_PREFIX + name, BlobFile(blobs[name]))];
    }
  }

  lemma DenseHas(blobs: Blobs)
    requires Dense(blobs, BlobName)
    ensures forall k: nat | k < |blobs| :: BlobName(k) in blobs
  {
  }

  function Head(root: Node, tensors: Tensors): Archive {
    [File(MANIFEST_NAME, Manifest(root))] + (if tensors != map[] then [File(TENSORS_NAME, TensorFile(tensors))] else [])
  }

  /******* Every member that is written passes the checks *******/

  lemma {:induction false} DigitsOf(n: nat)
    ensures forall c <- Decimal(n) :: '0' <= c <= '9'
  {
    if n >= 10 {
      DigitsOf(n / 10);
    }
  }

  lemma DigitsOfPadded(n: nat)
    ensures forall c <- Padded(n) :: '0' <= c <= '9'
  {
    DigitsOf(n);
  }

  predicate HasDoubleDot(s: string) {
    exists i :: 0 <= i < |s| - 1 && s[i] == '.' && s[i + 1] == '.'
  }

  lemma {:induction false} FirstPartIsPrefix(path: string)
    ensures Parts(path)[0] <= path
  {
    if path != "" {
      FirstPartIsPrefix(path[1..]);
    }
  }

  lemma {:induction false} NoParentPart(path: string)
    requires !HasDoubleDot(path)
    ensures ".." !in Parts(path)
  {
    if path != "" {
      var rest := path[1..];
      forall i | 0 <= i < |rest| - 1 ensures !(rest[i] == '.' && rest[i + 1] == '.') {
        assert rest[i] == path[i + 1] && rest[i + 1] == path[i + 2];
      }
      NoParentPart(rest);
      FirstPartIsPrefix(rest);
      assert forall p <- Parts(rest)[1..] :: p in Parts(rest);
      var first := [path[0]] + Parts(rest)[0];
      assert |first| == 2 ==> first[1] == rest[0];
      assert |first| == 2 ==> !(path[0] == '.' && path[1] == '.');
      assert first[0] == path[0] && |".."| == 2 && ".."[0] == '.' && ".."[1] == '.';
    }
  }

  lemma BlobMemberIsSafe(n: nat)
    ensures !Unsafe(BLOBS_PREFIX + BlobName(n))
  {
    var name := BLOBS_PREFIX + BlobName(n);
    DigitsOfPadded(n);
    assert BlobName(n) == "blob-" + Padded(n);
    forall i | 0 <= i < |name| ensures name[i] != '.' {
      if i >= 11 {
        assert name[i] == Padded(n)[i - 11];
        assert name[i] in Padded(n);
      }
    }
    NoParentPart(name);
  }

  lemma ManifestIsSafe()
    ensures !Unsafe(MANIFEST_NAME)
  {
    hide Parts;
    forall i | 0 <= i < |MANIFEST_NAME| - 1 ensures !(MANIFEST_NAME[i] == '.' && MANIFEST_NAME[i + 1] == '.') {
    }
    NoParentPart(MANIFEST_NAME);
  }

  lemma TensorsAreSafe()
    ensures !Unsafe(TENSORS_NAME)
  {
    hide Parts;
    forall i | 0 <= i < |TENSORS_NAME| - 1 ensures !(TENSORS_NAME[i] == '.' && TENSORS_NAME[i + 1] == '.') {
    }
    NoParentPart(TENSORS_NAME);
  }

  lemma FixedMembersDiffer()
    ensures MANIFEST_NAME != TENSORS_NAME && !IsBlobMember(MANIFEST_NAME) && !IsBlobMember(TENSORS_NAME)
  {
    assert MANIFEST_NAME[0] == 'm' && TENSORS_NAME[0] == 't' && BLOBS_PREFIX[0] == 'b';
  }

  function Written(root: Node, tensors: Tensors, blobs: Blobs, n: nat): Archive
    requires forall k: nat | k < n :: BlobName(k) in blobs
  {
    Head(root, tensors) + BlobFiles(blobs, n)
  }

  function BlobMember(blobs: Blobs, k: nat): File
    requires BlobName(k) in blobs
  {
    File(BLOBS_PREFIX + BlobName(k), BlobFile(blobs[BlobName(k)]))
  }

  lemma WrittenOneMore(root: Node, tensors: Tensors, blobs: Blobs, n: nat)
    requires forall k: nat | k <= n :: BlobName(k) in blobs
    ensures Written(root, tensors, blobs, n + 1) == Written(root, tensors, blobs, n) + [BlobMember(blobs, n)]
  {
  }

  ghost predicate Named(name: string, n: nat) {
    name == MANIFEST_NAME || name == TENSORS_NAME || exists k: nat :: k < n && name == BLOBS_PREFIX + BlobName(k)
  }

  lemma {:induction false} WrittenNames(root: Node, tensors: Tensors, blobs: Blobs, n: nat)
    requires forall k: nat | k < n :: BlobName(k) in blobs
    ensures forall f <- Written(root, tensors, blobs, n) :: Named(f.name, n) && !Unsafe(f.name)
  {
    hide BlobName, Unsafe;
    ManifestIsSafe();
    TensorsAreSafe();
    if n > 0 {
      WrittenNames(root, tensors, blobs, n - 1);
      WrittenOneMore(root, tensors, blobs, n - 1);
      BlobMemberIsSafe(n - 1);
      forall f | f in Written(root, tensors, blobs, n - 1) ensures Named(f.name, n) {
        assert Named(f.name, n - 1);
      }
    }
  }

  lemma {:induction false} WrittenDistinct(root: Node, tensors: Tensors, blobs: Blobs, n: nat)
    requires forall k: nat | k < n :: BlobName(k) in blobs
    ensures Distinct(Written(root, tensors, blobs, n))
  {
    hide BlobName, Unsafe;
    FixedMembersDiffer();
    if n > 0 {
      var before, last := Written(root, tensors, blobs, n - 1), BlobMember(blobs, n - 1);
      WrittenDistinct(root, tensors, blobs, n - 1);
      WrittenNames(root, tensors, blobs, n - 1);
      WrittenOneMore(root, tensors, blobs, n - 1);
      forall i | 0 <= i < |before| ensures before[i].name != last.name {
        assert before[i] in before;
        FreshMember(before[i].name, n - 1);
      }
    }
  }

  /** The next blob's member name differs from every name before it. */
  lemma FreshMember(name: string, n: nat)
    requires Named(name, n)
    ensures name != BLOBS_PREFIX + BlobName(n)
  {
    hide BlobName;
    FixedMembersDiffer();
    assert IsBlobMember(BLOBS_PREFIX + BlobName(n));
    if name == BLOBS_PREFIX + BlobName(n) {
      var k: nat :| k < n && name == BLOBS_PREFIX + BlobName(k);
      assert name[|BLOBS_PREFIX|..] == BlobName(k) == BlobName(n);
      NamesAreInjective(k, n);
    }
  }

  ghost function FirstBlobs(blobs: Blobs, n: nat): (first: Blobs)
    requires forall k: nat | k < n :: BlobName(k) in blobs
  {
    if n == 0 then map[] else FirstBlobs(blobs, n - 1)[BlobName(n - 1) := blobs[BlobName(n - 1)]]
  }

  lemma {:induction false} FirstBlobsAre(blobs: Blobs, n: nat)
    requires forall k: nat | k < n :: BlobName(k) in blobs
    ensures forall name :: name in FirstBlobs(blobs, n) <==> exists k: nat :: k < n && name == BlobName(k)
    ensures forall name <- FirstBlobs(blobs, n) :: name in blobs && FirstBlobs(blobs, n)[name] == blobs[name]
  {
    hide BlobName;
    if n > 0 {
      FirstBlobsAre(blobs, n - 1);
    }
  }

  lemma AllBlobsAreFirst(blobs: Blobs)
    requires Dense(blobs, BlobName)
    ensures FirstBlobs(blobs, |blobs|) == blobs
  {
    hide BlobName, FirstBlobs;
    FirstBlobsAre(blobs, |blobs|);
  }

  lemma HeadHasNoBlobs(root: Node, tensors: Tensors)
    ensures ReadBlobs(Head(root, tensors)) == map[]
  {
    FixedMembersDiffer();
    hide IsBlobMember;
    var head := Head(root, tensors);
    var manifest := [head[0]];
    assert manifest[..0] == [];
    assert ReadBlobs(manifest) == map[];
    assert |head| == 2 ==> head[..1] == manifest;
  }

  lemma ReadOneMore(before: Archive, name: string, bytes: seq<Byte>)
    ensures ReadBlobs(before + [File(BLOBS_PREFIX + name, BlobFile(bytes))]) == ReadBlobs(before)[name := bytes]
  {
    var last := File(BLOBS_PREFIX + name, BlobFile(bytes));
    assert (before + [last])[..|before|] == before;
    assert last.name[|BLOBS_PREFIX|..] == name;
  }

  lemma FirstOneMore(blobs: Blobs, n: nat)
    requires forall k: nat | k <= n :: BlobName(k) in blobs
    ensures FirstBlobs(blobs, n + 1) == FirstBlobs(blobs, n)[BlobName(n) := blobs[BlobName(n)]]
  {
    hide BlobName;
  }

  lemma {:induction false} WrittenBlobs(root: Node, tensors: Tensors, blobs: Blobs, n: nat)
    requires forall k: nat | k < n :: BlobName(k) in blobs
    ensures ReadBlobs(Written(root, tensors, blobs, n)) == FirstBlobs(blobs, n)
  {
    hide BlobName, ReadBlobs;
    if n == 0 {
      var head := Head(root, tensors);
      assert Written(root, tensors, blobs, 0) == head;
      HeadHasNoBlobs(root, tensors);
    } else {
      hide FirstBlobs, Written;
      WrittenBlobs(root, tensors, blobs, n - 1);
      WrittenOneMore(root, tensors, blobs, n - 1);
      ReadOneMore(Written(root, tensors, blobs, n - 1), BlobName(n - 1), blobs[BlobName(n - 1)]);
      FirstOneMore(blobs, n - 1);
    }
  }

  lemma {:induction false} WrittenHead(root: Node, tensors: Tensors, blobs: Blobs, n: nat)
    requires forall k: nat | k < n :: BlobName(k) in blobs
    ensures var a := Written(root, tensors, blobs, n);
            && Has(a, MANIFEST_NAME) && Read(a, MANIFEST_NAME) == Manifest(root)
            && (Has(a, TENSORS_NAME) <==> tensors != map[])
            && (tensors != map[] ==> Read(a, TENSORS_NAME) == TensorFile(tensors))
  {
    hide BlobName;
    FixedMembersDiffer();
    var a := Written(root, tensors, blobs, n);
    if n == 0 {
      assert a == Head(root, tensors);
      assert a[0].name == MANIFEST_NAME;
      if tensors != map[] {
        assert a[1].name == TENSORS_NAME && a[..1] == [a[0]];
      }
    } else {
      var before, last := Written(root, tensors, blobs, n - 1), BlobMember(blobs, n - 1);
      WrittenHead(root, tensors, blobs, n - 1);
      WrittenOneMore(root, tensors, blobs, n - 1);
      assert IsBlobMember(last.name) && a[..|before|] == before;
      HasBefore(before, last, MANIFEST_NAME);
      HasBefore(before, last, TENSORS_NAME);
    }
  }

  lemma HasBefore(before: Archive, last: File, name: string)
    requires last.name != name
    ensures Has(before + [last], name) <==> Has(before, name)
    ensures Has(before, name) ==> Read(before + [last], name) == Read(before, name)
  {
    var a := before + [last];
    assert a[..|before|] == before;
    if Has(before, name) {
      var i :| 0 <= i < |before| && before[i].name == name;
      assert a[i].name == name;
    }
    if Has(a, name) {
      var i :| 0 <= i < |a| && a[i].name == name;
      assert before[i].name == name;
    }
  }

  /** Loading what was dumped gives the value back. */
  lemma BundleLoads(root: Node, tensors: Tensors, blobs: Blobs, size: Node -> nat, value: Value)
    requires Dense(blobs, BlobName) && Decodes(root, tensors, blobs, 0, value) && size(root) <= MAX_MANIFEST_BYTES
    ensures LoadBundle(Written(root, tensors, blobs, |blobs|), size) == Ok(Norm(value))
  {
    hide LoadBundle, Written, Distinct, Has, Read, Unsafe, Named, ReadBlobs, Decode, Norm, FirstBlobs;
    var a := Written(root, tensors, blobs, |blobs|);
    WrittenNames(root, tensors, blobs, |blobs|);
    WrittenDistinct(root, tensors, blobs, |blobs|);
    WrittenHead(root, tensors, blobs, |blobs|);
    WrittenBlobs(root, tensors, blobs, |blobs|);
    AllBlobsAreFirst(blobs);
    hide BlobName, Dense;
    assert Decode(root, tensors, blobs, 0) == Ok(Norm(value));
    LoadsWhenChecked(a, size, root, tensors, blobs, |blobs|);
  }

  /** An archive with the right members, all of them declared, is decoded. */
  lemma LoadsWhenChecked(a: Archive, size: Node -> nat, root: Node, tensors: Tensors, blobs: Blobs, n: nat)
    requires Distinct(a) && Has(a, MANIFEST_NAME) && Read(a, MANIFEST_NAME) == Manifest(root)
    requires size(root) <= MAX_MANIFEST_BYTES
    requires Has(a, TENSORS_NAME) <==> tensors != map[]
    requires tensors == map[] || Read(a, TENSORS_NAME) == TensorFile(tensors)
    requires forall f <- a :: Named(f.name, n) && !Unsafe(f.name)
    requires ReadBlobs(a) == blobs && Decode(root, tensors, blobs, 0).Ok?
    ensures LoadBundle(a, size) == Ok(Decode(root, tensors, blobs, 0).value)
  {
    hide Decode, Unsafe, Read, Distinct, Has, ReadBlobs, BlobName;
    forall f | f in a ensures f.name == MANIFEST_NAME || f.name == TENSORS_NAME || IsBlobMember(f.name) {
      assert Named(f.name, n);
    }
  }
}
