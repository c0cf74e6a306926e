/** What crosses a partition boundary, place by place, and which archives a receiver loads
    (cloud_offload/partition_protocol.py). */
module PartitionLaws {
  import opened Prelude
  import opened PartitionCodec
  import opened PartitionBundle

  /******* Places in a value *******/

  /** One step down into a value: into an item of a list or tuple, or to what a dict or a
      native object has under a name. */
  datatype Step = At(index: nat) | Under(name: string)

  function Follow(v: Value, path: seq<Step>): Option<Value>
    decreases |path|
  {
    if path == [] then Some(v)
    else
      match path[0]
      case At(i) => if (v.List? || v.Tuple?) && i < |v.items| then Follow(v.items[i], path[1..]) else None
      case Under(name) =>
        if v.Dict? && name in v.entries then Follow(v.entries[name], path[1..])
        else if v.Geometry? && name in v.fields then Follow(v.fields[name], path[1..])
        else None
  }

  /** What the receiver has where the sender had `v`. */
  ghost predicate Arrives(v: Value, w: Value) {
    match v
    case Bytes(_, content) => w == Bytes(PlainBytes, content)
    case TensorValue(t) => w == TensorValue(Tensor(t.shape, t.elements, t.strided, Cpu))
    case Geometry(kind, fields) => w.Geometry? && w.geometry == kind && w.fields.Keys == fields.Keys
    case List(items) => w.List? && |w.items| == |items|
    case Tuple(items) => w.Tuple? && |w.items| == |items|
    case Dict(entries) => w.Dict? && w.entries.Keys == entries.Keys
    case _ => w == v
  }

  /** The value that arrives has the places of the one that was sent, with the same in each:
      of a byte string its content, of a tensor its shape and elements, of a container its
      kind and its keys or its length. */
  lemma {:induction false} EveryPlaceArrives(v: Value, path: seq<Step>)
    ensures match Follow(v, path)
            case None => Follow(Norm(v), path).None?
            case Some(there) => Follow(Norm(v), path).Some? && Arrives(there, Follow(Norm(v), path).value)
    decreases |path|
  {
    if path != [] {
      match path[0] {
        case At(i) =>
          if (v.List? || v.Tuple?) && i < |v.items| {
            EveryPlaceArrives(v.items[i], path[1..]);
          }
        case Under(name) =>
          if v.Dict? && name in v.entries {
            EveryPlaceArrives(v.entries[name], path[1..]);
          } else if v.Geometry? && name in v.fields {
            EveryPlaceArrives(v.fields[name], path[1..]);
          }
      }
    }
  }

  /** How deep in the tree a place is: an attribute of a native object is two levels down. */
  function Depth(v: Value, path: seq<Step>): nat
    requires Follow(v, path).Some?
    decreases |path|
  {
    if path == [] then 0
    else
      match path[0]
      case At(i) => 1 + Depth(v.items[i], path[1..])
      case Under(name) => if v.Dict? then 1 + Depth(v.entries[name], path[1..]) else 2 + Depth(v.fields[name], path[1..])
  }

  /** What may stand at a place `depth` levels down. */
  ghost predicate MayStand(v: Value, depth: nat) {
    && depth <= 64
    && !v.KeyedByOther? && !v.Unsupported?
    && (v.Real? ==> v.float.Finite?)
    && (v.TensorValue? ==> v.tensor.strided)
    && (v.Geometry? ==> ValidGeometry(v.geometry, v.fields) && depth <= 63)
  }

  /** A value is accepted at a depth exactly when what stands at each of its places may. */
  lemma PortableExactly(v: Value, depth: nat)
    ensures Portable(v, depth) <==>
              forall path | Follow(v, path).Some? :: MayStand(Follow(v, path).value, depth + Depth(v, path))
  {
    hide Portable, MayStand, Follow, Depth;
    if Portable(v, depth) {
      forall path | Follow(v, path).Some? ensures MayStand(Follow(v, path).value, depth + Depth(v, path)) {
        PortableEverywhere(v, depth, path);
      }
    } else {
      var path := UnportablePlace(v, depth);
    }
  }

  lemma {:induction false} PortableEverywhere(v: Value, depth: nat, path: seq<Step>)
    requires Portable(v, depth) && Follow(v, path).Some?
    ensures MayStand(Follow(v, path).value, depth + Depth(v, path))
    decreases |path|
  {
    hide ValidGeometry, MayStand;
    if path == [] {
      PortableStands(v, depth);
    } else {
      var under, deeper := PortableBelow(v, depth, path);
      hide Portable, Follow, Depth;
      PortableEverywhere(under, deeper, path[1..]);
    }
  }

  /** One step down from an accepted value. */
  lemma PortableBelow(v: Value, depth: nat, path: seq<Step>) returns (under: Value, deeper: nat)
    requires Portable(v, depth) && path != [] && Follow(v, path).Some?
    ensures Portable(under, deeper) && Follow(v, path) == Follow(under, path[1..])
    ensures depth + Depth(v, path) == deeper + Depth(under, path[1..])
  {
    hide ValidGeometry;
    match path[0] {
      case At(i) => under, deeper := v.items[i], depth + 1;
      case Under(name) =>
        if v.Dict? {
          under, deeper := v.entries[name], depth + 1;
        } else {
          under, deeper := v.fields[name], depth + 2;
        }
    }
  }

  lemma PortableStands(v: Value, depth: nat)
    requires Portable(v, depth)
    ensures MayStand(v, depth)
  {
  }

  lemma {:induction false} UnportablePlace(v: Value, depth: nat) returns (path: seq<Step>)
    requires !Portable(v, depth)
    ensures Follow(v, path).Some? && !MayStand(Follow(v, path).value, depth + Depth(v, path))
    decreases v
  {
    hide ValidGeometry;
    path := [];
    if MayStand(v, depth) {
      if v.List? || v.Tuple? {
        var k :| 0 <= k < |v.items| && !Portable(v.items[k], depth + 1);
        var rest := UnportablePlace(v.items[k], depth + 1);
        path := [At(k)] + rest;
        assert path[1..] == rest;
      } else if v.Dict? {
        var k :| k in v.entries && !Portable(v.entries[k], depth + 1);
        var rest := UnportablePlace(v.entries[k], depth + 1);
        path := [Under(k)] + rest;
        assert path[1..] == rest;
      } else {
        var k :| k in v.fields && !Portable(v.fields[k], depth + 2);
        var rest := UnportablePlace(v.fields[k], depth + 2);
        path := [Under(k)] + rest;
        assert path[1..] == rest;
      }
    }
  }

  /******* Places in a tree *******/

  function NodeAt(node: Node, path: seq<nat>): Option<Node>
    decreases |path|
  {
    if path == [] then Some(node)
    else
      var i := path[0];
      match node
      case ListNode(items) => if i < |items| then NodeAt(items[i], path[1..]) else None
      case TupleNode(items) => if i < |items| then NodeAt(items[i], path[1..]) else None
      case DictNode(entries) => if i < |entries| then NodeAt(entries[i].node, path[1..]) else None
      case GeometryNode(_, fields) => if i == 0 then NodeAt(fields, path[1..]) else None
      case _ => None
  }

  /** A node the receiver takes at `depth`: not too deep, naming what the archive has, and as a
      native object with the fields of its kind. */
  ghost predicate IsReadable(node: Node, tensors: Tensors, blobs: Blobs, depth: nat) {
    && depth <= 64
    && (node.BlobNode? ==> node.blob in blobs)
    && (node.TensorNode? ==> node.name in tensors)
    && (node.GeometryNode? ==>
          match Decode(node.fields, tensors, blobs, depth + 1)
          case Ok(v) => v.Dict? && ValidGeometry(node.geometry, v.entries)
          case Err(_) => true)
  }

  lemma {:induction false} ItemsDecodeTogether(items: seq<Node>, tensors: Tensors, blobs: Blobs, depth: nat)
    ensures DecodeItems(items, tensors, blobs, depth).Ok?
            <==> forall k | 0 <= k < |items| :: Decode(items[k], tensors, blobs, depth).Ok?
  {
    hide Decode;
    if items != [] {
      var n := |items| - 1;
      ItemsDecodeTogether(items[..n], tensors, blobs, depth);
      assert forall k | 0 <= k < n :: items[..n][k] == items[k];
    }
  }

  lemma {:induction false} EntriesDecodeTogether(entries: seq<Member>, tensors: Tensors, blobs: Blobs, depth: nat)
    ensures DecodeEntries(entries, tensors, blobs, depth).Ok?
            <==> forall k | 0 <= k < |entries| :: Decode(entries[k].node, tensors, blobs, depth).Ok?
  {
    hide Decode;
    if entries != [] {
      var n := |entries| - 1;
      EntriesDecodeTogether(entries[..n], tensors, blobs, depth);
      assert forall k | 0 <= k < n :: entries[..n][k] == entries[k];
    }
  }

  /** The nodes directly below a node. */
  function Below(node: Node): seq<Node> {
    match node
    case ListNode(items) => items
    case TupleNode(items) => items
    case DictNode(entries) => seq(|entries|, k requires 0 <= k < |entries| => entries[k].node)
    case GeometryNode(_, fields) => [fields]
    case _ => []
  }

  lemma NodeBelow(node: Node, path: seq<nat>)
    requires path != []
    ensures NodeAt(node, path) == if path[0] < |Below(node)| then NodeAt(Below(node)[path[0]], path[1..]) else None
  {
  }

  lemma DecodesOneLevel(node: Node, tensors: Tensors, blobs: Blobs, depth: nat)
    ensures Decode(node, tensors, blobs, depth).Ok?
            <==> && IsReadable(node, tensors, blobs, depth)
                 && forall k | 0 <= k < |Below(node)| :: Decode(Below(node)[k], tensors, blobs, depth + 1).Ok?
  {
    hide ValidGeometry;
    var below := Below(node);
    match node {
      case ListNode(items) => ItemsDecodeTogether(items, tensors, blobs, depth + 1);
      case TupleNode(items) => ItemsDecodeTogether(items, tensors, blobs, depth + 1);
      case DictNode(entries) =>
        EntriesDecodeTogether(entries, tensors, blobs, depth + 1);
        assert forall k | 0 <= k < |entries| :: below[k] == entries[k].node;
      case GeometryNode(_, fields) => assert below[0] == fields;
      case _ =>
    }
  }

  /** A tree decodes exactly when every node of it is readable where it stands. */
  lemma DecodesExactly(node: Node, tensors: Tensors, blobs: Blobs, depth: nat)
    ensures Decode(node, tensors, blobs, depth).Ok?
            <==> forall path | NodeAt(node, path).Some? :: IsReadable(NodeAt(node, path).value, tensors, blobs, depth + |path|)
  {
    hide Decode, IsReadable, NodeAt;
    if Decode(node, tensors, blobs, depth).Ok? {
      forall path | NodeAt(node, path).Some? ensures IsReadable(NodeAt(node, path).value, tensors, blobs, depth + |path|) {
        ReadableEverywhere(node, tensors, blobs, depth, path);
      }
    } else {
      var path := UnreadablePlace(node, tensors, blobs, depth);
    }
  }

  lemma {:induction false} ReadableEverywhere(node: Node, tensors: Tensors, blobs: Blobs, depth: nat, path: seq<nat>)
    requires Decode(node, tensors, blobs, depth).Ok? && NodeAt(node, path).Some?
    ensures IsReadable(NodeAt(node, path).value, tensors, blobs, depth + |path|)
    decreases |path|
  {
    hide Decode, IsReadable, Below;
    DecodesOneLevel(node, tensors, blobs, depth);
    if path != [] {
      NodeBelow(node, path);
      ReadableEverywhere(Below(node)[path[0]], tensors, blobs, depth + 1, path[1..]);
    }
  }

  lemma {:induction false} UnreadablePlace(node: Node, tensors: Tensors, blobs: Blobs, depth: nat)
    returns (path: seq<nat>)
    requires Decode(node, tensors, blobs, depth).Err?
    ensures NodeAt(node, path).Some? && !IsReadable(NodeAt(node, path).value, tensors, blobs, depth + |path|)
    decreases node
  {
    hide Decode, IsReadable;
    DecodesOneLevel(node, tensors, blobs, depth);
    path := [];
    if IsReadable(node, tensors, blobs, depth) {
      var k :| 0 <= k < |Below(node)| && Decode(Below(node)[k], tensors, blobs, depth + 1).Err?;
      var rest := UnreadablePlace(Below(node)[k], tensors, blobs, depth + 1);
      path := [k] + rest;
      assert path[1..] == rest;
      NodeBelow(node, path);
    }
  }

  /******* Archives *******/

  /** `part` stands at position `i` of `path` between two slashes, or a slash and an end. */
  ghost predicate IsPartAt(path: string, part: string, i: nat) {
    && i + |part| <= |path| && path[i..i + |part|] == part && '/' !in part
    && (i == 0 || path[i - 1] == '/') && (i + |part| == |path| || path[i + |part|] == '/')
  }

  lemma FirstPartIs(path: string)
    ensures IsPartAt(path, Parts(path)[0], 0)
  {
    FirstPartIsPrefix(path);
    FirstPartStops(path);
  }

  lemma {:induction false} FirstPartStops(path: string)
    ensures var first := Parts(path)[0];
            && '/' !in first && |first| <= |path| && (|first| == |path| || path[|first|] == '/')
  {
    if path != "" {
      FirstPartStops(path[1..]);
    }
  }

  lemma OneFirstPart(path: string, a: string, b: string)
    requires IsPartAt(path, a, 0) && IsPartAt(path, b, 0)
    ensures a == b
  {
    assert a == path[..|a|] && b == path[..|b|];
    assert forall k | 0 <= k < |a| :: path[k] == a[k] && a[k] != '/';
    assert forall k | 0 <= k < |b| :: path[k] == b[k] && b[k] != '/';
  }

  lemma PartFurtherOn(path: string, part: string, i: nat)
    requires path != "" && i >= 1 && (i == 1 ==> path[0] == '/')
    ensures IsPartAt(path, part, i) <==> IsPartAt(path[1..], part, i - 1)
  {
    if i + |part| <= |path| {
      var here, there := path[i..i + |part|], path[1..][i - 1..i - 1 + |part|];
      assert forall k | 0 <= k < |part| :: here[k] == path[i + k] == path[1..][i - 1 + k] == there[k];
      assert here == there;
    }
  }

  lemma {:induction false} LaterParts(path: string, part: string)
    ensures part in Parts(path)[1..] <==> exists i: nat :: i >= 1 && IsPartAt(path, part, i)
  {
    hide IsPartAt;
    if path == "" {
      NoPartPast(path, part);
    } else {
      var rest := path[1..];
      LaterParts(rest, part);
      FirstPartIs(rest);
      if path[0] == '/' {
        LaterPartsOfSlash(path, part);
      } else {
        SlashBefore(path, part);
        forall i: nat | i >= 2 ensures IsPartAt(path, part, i) <==> IsPartAt(rest, part, i - 1) {
          PartFurtherOn(path, part, i);
        }
        if i: nat :| i >= 1 && IsPartAt(rest, part, i) {
          assert IsPartAt(path, part, i + 1);
        }
      }
    }
  }

  lemma NoPartPast(path: string, part: string)
    ensures forall i: nat | IsPartAt(path, part, i) :: i <= |path|
  {
  }

  lemma SlashBefore(path: string, part: string)
    requires path != "" && path[0] != '/'
    ensures !IsPartAt(path, part, 1)
  {
  }

  lemma LaterPartsOfSlash(path: string, part: string)
    requires path != "" && path[0] == '/'
    requires part in Parts(path[1..])[1..] <==> exists i: nat :: i >= 1 && IsPartAt(path[1..], part, i)
    ensures part in Parts(path)[1..] <==> exists i: nat :: i >= 1 && IsPartAt(path, part, i)
  {
    hide IsPartAt;
    var rest := path[1..];
    FirstPartIs(rest);
    assert Parts(path)[1..] == Parts(rest);
    forall i: nat | i >= 1 ensures IsPartAt(path, part, i) <==> IsPartAt(rest, part, i - 1) {
      PartFurtherOn(path, part, i);
    }
    if part == Parts(rest)[0] {
      assert IsPartAt(path, part, 1);
    } else if part in Parts(rest) {
      assert part in Parts(rest)[1..];
      var i: nat :| i >= 1 && IsPartAt(rest, part, i);
      assert IsPartAt(path, part, i + 1);
    }
    if i: nat :| i >= 1 && IsPartAt(path, part, i) {
      if i == 1 {
        OneFirstPart(rest, part, Parts(rest)[0]);
      }
    }
  }

  /** The parts of a path are what stands between its slashes. */
  lemma PartsAreBetweenSlashes(path: string, part: string)
    ensures part in Parts(path) <==> exists i: nat :: IsPartAt(path, part, i)
  {
    hide IsPartAt;
    LaterParts(path, part);
    FirstPartIs(path);
    if i: nat :| IsPartAt(path, part, i) {
      if i == 0 {
        OneFirstPart(path, part, Parts(path)[0]);
      }
    }
    if part in Parts(path) {
      assert part == Parts(path)[0] || part in Parts(path)[1..];
    }
  }

  /** An absolute path, or one that goes up. */
  ghost predicate LeavesTheDirectory(name: string) {
    (name != "" && name[0] in {'/', '\\'}) || exists i: nat :: IsPartAt(name, "..", i)
  }

  ghost predicate Holds(archive: Archive, name: string, content: Content) {
    exists f :: f in archive && f.name == name && f.content == content
  }

  /** `blobs` is what an archive has under `blobs/`. */
  ghost predicate AreBlobs(archive: Archive, blobs: Blobs) {
    forall name, bytes :: name in blobs && blobs[name] == bytes <==> Holds(archive, "blobs/" + name, BlobFile(bytes))
  }

  /** The archives a receiver takes: no two members of one name, none that leaves the
      directory, none besides the manifest, the tensors and the blobs, a manifest that is not
      too large, and a tree that decodes against what is there. */
  ghost predicate IsBundle(archive: Archive, size: Node -> nat, root: Node, tensors: Tensors, blobs: Blobs, v: Value) {
    && (forall i, j | 0 <= i < j < |archive| :: archive[i].name != archive[j].name)
    && (forall f <- archive ::
          && !LeavesTheDirectory(f.name)
          && (f.name == "manifest.json" || f.name == "tensors.safetensors" || "blobs/" <= f.name))
    && Holds(archive, "manifest.json", Manifest(root)) && size(root) <= 8_388_608
    && (Holds(archive, "tensors.safetensors", TensorFile(tensors))
        || (tensors == map[] && forall f <- archive :: f.name != "tensors.safetensors"))
    && AreBlobs(archive, blobs) && Decode(root, tensors, blobs, 0) == Ok(v)
  }

  lemma {:induction false} ReadIsHeld(archive: Archive, name: string)
    requires Distinct(archive) && Has(archive, name)
    ensures forall content :: Holds(archive, name, content) <==> content == Read(archive, name)
    decreases |archive|
  {
    var n := |archive| - 1;
    assert archive == archive[..n] + [archive[n]];
    if archive[n].name != name {
      HasBefore(archive[..n], archive[n], name);
      ReadIsHeld(archive[..n], name);
      assert forall content :: Holds(archive, name, content) <==> Holds(archive[..n], name, content);
    }
  }

  lemma HeldIsHas(archive: Archive, name: string)
    ensures Has(archive, name) <==> exists f :: f in archive && f.name == name
  {
    if Has(archive, name) {
      var i :| 0 <= i < |archive| && archive[i].name == name;
      assert archive[i] in archive;
    }
  }

  lemma {:induction false} BlobsAreRead(archive: Archive)
    requires Distinct(archive)
    ensures AreBlobs(archive, ReadBlobs(archive))
    decreases |archive|
  {
    if archive != [] {
      var n := |archive| - 1;
      var before, last := archive[..n], archive[n];
      assert archive == before + [last];
      BlobsAreRead(before);
      forall name, bytes
        ensures name in ReadBlobs(archive) && ReadBlobs(archive)[name] == bytes
                <==> Holds(archive, "blobs/" + name, BlobFile(bytes))
      {
        BlobIsRead(before, last, name, bytes);
      }
    }
  }

  lemma BlobIsRead(before: Archive, last: File, name: string, bytes: seq<Byte>)
    requires Distinct(before + [last]) && AreBlobs(before, ReadBlobs(before))
    ensures var archive := before + [last];
            name in ReadBlobs(archive) && ReadBlobs(archive)[name] == bytes
            <==> Holds(archive, "blobs/" + name, BlobFile(bytes))
  {
    var archive := before + [last];
    assert archive[..|before|] == before;
    assert Holds(archive, "blobs/" + name, BlobFile(bytes))
      <==> Holds(before, "blobs/" + name, BlobFile(bytes)) || last == File("blobs/" + name, BlobFile(bytes));
    if IsBlobMember(last.name) && last.content.BlobFile? {
      var key := last.name[|BLOBS_PREFIX|..];
      assert last.name == "blobs/" + key;
      assert key == name <==> "blobs/" + name == last.name;
      assert forall f <- before :: f.name != last.name;
    }
  }

  lemma OneBlobTable(archive: Archive, a: Blobs, b: Blobs)
    requires AreBlobs(archive, a) && AreBlobs(archive, b)
    ensures a == b
  {
    forall name | name in a ensures name in b && b[name] == a[name] {
      assert Holds(archive, "blobs/" + name, BlobFile(a[name]));
    }
    forall name | name in b ensures name in a {
      assert Holds(archive, "blobs/" + name, BlobFile(b[name]));
    }
  }

  lemma UnsafeExactly(name: string)
    ensures Unsafe(name) <==> LeavesTheDirectory(name)
  {
    PartsAreBetweenSlashes(name, "..");
  }

  /** A bundle is loaded exactly when it is one, and then as the value its tree decodes to. */
  lemma LoadsExactly(archive: Archive, size: Node -> nat, v: Value)
    ensures LoadBundle(archive, size) == Ok(v)
            <==> exists root, tensors, blobs :: IsBundle(archive, size, root, tensors, blobs, v)
  {
    if LoadBundle(archive, size) == Ok(v) {
      LoadedIsBundle(archive, size, v);
    }
    if root, tensors, blobs :| IsBundle(archive, size, root, tensors, blobs, v) {
      BundleIsLoaded(archive, size, root, tensors, blobs, v);
    }
  }

  lemma LoadedIsBundle(archive: Archive, size: Node -> nat, v: Value)
    requires LoadBundle(archive, size) == Ok(v)
    ensures exists root, tensors, blobs :: IsBundle(archive, size, root, tensors, blobs, v)
  {
    hide Unsafe, LeavesTheDirectory, Read, ReadBlobs, AreBlobs, Decode;
    forall f | f in archive ensures !LeavesTheDirectory(f.name) {
      UnsafeExactly(f.name);
    }
    ReadIsHeld(archive, MANIFEST_NAME);
    HeldIsHas(archive, TENSORS_NAME);
    if Has(archive, TENSORS_NAME) {
      ReadIsHeld(archive, TENSORS_NAME);
    }
    BlobsAreRead(archive);
    var stored := if Has(archive, TENSORS_NAME) then Read(archive, TENSORS_NAME) else TensorFile(map[]);
    assert IsBundle(archive, size, Read(archive, MANIFEST_NAME).root, stored.tensors, ReadBlobs(archive), v);
  }

  lemma BundleIsLoaded(archive: Archive, size: Node -> nat, root: Node, tensors: Tensors, blobs: Blobs, v: Value)
    requires IsBundle(archive, size, root, tensors, blobs, v)
    ensures LoadBundle(archive, size) == Ok(v)
  {
    hide Unsafe, LeavesTheDirectory, Read, ReadBlobs, AreBlobs, Decode;
    forall f | f in archive ensures !Unsafe(f.name) {
      UnsafeExactly(f.name);
    }
    HeldIsHas(archive, MANIFEST_NAME);
    ReadIsHeld(archive, MANIFEST_NAME);
    HeldIsHas(archive, TENSORS_NAME);
    if Has(archive, TENSORS_NAME) {
      ReadIsHeld(archive, TENSORS_NAME);
    }
    BlobsAreRead(archive);
    OneBlobTable(archive, blobs, ReadBlobs(archive));
  }
}
