/** Value transport between graph partitions (cloud_offload/partition_protocol.py).

    The encoder turns a value into a JSON tree and moves byte strings and tensors
    into two side tables under names it makes up; the decoder puts them back.  */
module PartitionCodec {
  import opened Prelude

  const MAX_TREE_DEPTH: nat := 64
  const MAX_TREE_ITEMS: nat := 100_000

  /******* Values *******/

  type Byte = x: int | 0 <= x < 256

  datatype Float = Finite(value: real) | NotFinite

  datatype BytesKind = PlainBytes | ByteArray | MemoryView

  datatype Device = Cpu | Accelerator(index: nat)

  datatype Tensor = Tensor(shape: seq<nat>, elements: seq<Float>, strided: bool, device: Device)

  datatype GeometryKind = MeshV1 | PaintCamerasV1

  /** `Geometry` is one of the two native classes, as the values of its attributes.
      `KeyedByOther` is a dict with a key that is not a string, and `Unsupported`
      anything else. */
  datatype Value =
    | NoneValue
    | Bool(flag: bool)
    | Int(number: int)
    | Real(float: Float)
    | Text(text: string)
    | Bytes(form: BytesKind, content: seq<Byte>)
    | TensorValue(tensor: Tensor)
    | Geometry(geometry: GeometryKind, fields: map<string, Value>)
    | List(items: seq<Value>)
    | Tuple(items: seq<Value>)
    | Dict(entries: map<string, Value>)
    | KeyedByOther
    | Unsupported

  /** The JSON tree.  An object's members keep the order they were written in. */
  datatype Node =
    | NoneNode
    | BoolNode(flag: bool)
    | IntNode(number: int)
    | RealNode(value: real)
    | TextNode(text: string)
    | BlobNode(blob: string)
    | TensorNode(name: string)
    | GeometryNode(geometry: GeometryKind, fields: Node)
    | ListNode(items: seq<Node>)
    | TupleNode(items: seq<Node>)
    | DictNode(entries: seq<Member>)

  datatype Member = Member(key: string, node: Node)

  type Tensors = map<string, Tensor>
  type Blobs = map<string, seq<Byte>>

  /******* Native geometry *******/

  const MESH_FIELDS: set<string> := {
    "vertices", "faces", "uvs", "vertex_colors", "texture", "metallic_roughness",
    "vertex_counts", "face_counts", "unlit", "normals", "tangents", "normal_map",
    "occlusion_in_mr", "material", "emissive" }

  const CAMERA_ARRAYS: set<string> := {"elevs", "azims", "weights"}
  const CAMERA_SCALARS: set<string> := {"ortho_scale", "camera_distance", "near", "far"}

  predicate MeshField(name: string, v: Value) {
    if name in {"unlit", "occlusion_in_mr"} then v.Bool?
    else if name == "material" then v.NoneValue? || v.Dict? || v.KeyedByOther?
    else v.NoneValue? || v.TensorValue?
  }

  predicate Triples(v: Value) {
    v.TensorValue? && |v.tensor.shape| == 3 && v.tensor.shape[2] == 3
  }

  predicate ValidMesh(fields: map<string, Value>) {
    && fields.Keys == MESH_FIELDS
    && (forall name <- fields :: MeshField(name, fields[name]))
    && Triples(fields["vertices"]) && Triples(fields["faces"])
    && fields["vertices"].tensor.shape[0] == fields["faces"].tensor.shape[0]
    && (fields["vertex_counts"].NoneValue? <==> fields["face_counts"].NoneValue?)
  }

  /** A float or an int, but not a bool, and finite. */
  predicate IsNumber(v: Value) {
    v.Int? || (v.Real? && v.float.Finite?)
  }

  function Number(v: Value): real
    requires IsNumber(v)
  {
    if v.Int? then v.number as real else v.float.value
  }

  predicate CameraArray(v: Value) {
    v.List? && 1 <= |v.items| <= 6 && forall x <- v.items :: IsNumber(x)
  }

  predicate ValidCameras(fields: map<string, Value>) {
    && fields.Keys == CAMERA_ARRAYS + CAMERA_SCALARS
    && (forall name <- CAMERA_ARRAYS :: CameraArray(fields[name]))
    && |fields["elevs"].items| == |fields["azims"].items| == |fields["weights"].items|
    && (forall name <- CAMERA_SCALARS :: IsNumber(fields[name]) && Number(fields[name]) > 0.0)
    && Number(fields["near"]) < Number(fields["far"])
  }

  predicate ValidGeometry(kind: GeometryKind, fields: map<string, Value>) {
    if kind == MeshV1 then ValidMesh(fields) else ValidCameras(fields)
  }

  /******* Decoding *******/

  datatype CodecError =
    | TooDeep | TooManyItems | NotFiniteFloat | NotStrided | InvalidGeometry | NonStringKey | UnsupportedValue
    | MissingBlob(blob: string) | MissingTensor(name: string) | InvalidFields

  function Decode(node: Node, tensors: Tensors, blobs: Blobs, depth: nat): Result<Value, CodecError>
    decreases node, 0
  {
    if depth > MAX_TREE_DEPTH then
      Err(TooDeep)
    else
      match node
      case NoneNode => Ok(NoneValue)
      case BoolNode(b) => Ok(Bool(b))
      case IntNode(i) => Ok(Int(i))
      case RealNode(x) => Ok(Real(Finite(x)))
      case TextNode(s) => Ok(Text(s))
      case BlobNode(name) => if name in blobs then Ok(Bytes(PlainBytes, blobs[name])) else Err(MissingBlob(name))
      case TensorNode(name) => if name in tensors then Ok(TensorValue(tensors[name])) else Err(MissingTensor(name))
      case GeometryNode(kind, fields) =>
        (match Decode(fields, tensors, blobs, depth + 1)
         case Err(e) => Err(e)
         case Ok(v) => if v.Dict? && ValidGeometry(kind, v.entries) then Ok(Geometry(kind, v.entries)) else Err(InvalidFields))
      case ListNode(items) =>
        (match DecodeItems(items, tensors, blobs, depth + 1)
         case Err(e) => Err(e)
         case Ok(values) => Ok(List(values)))
      case TupleNode(items) =>
        (match DecodeItems(items, tensors, blobs, depth + 1)
         case Err(e) => Err(e)
         case Ok(values) => Ok(Tuple(values)))
      case DictNode(entries) =>
        (match DecodeEntries(entries, tensors, blobs, depth + 1)
         case Err(e) => Err(e)
         case Ok(values) => Ok(Dict(values)))
  }

  function DecodeItems(items: seq<Node>, tensors: Tensors, blobs: Blobs, depth: nat): Result<seq<Value>, CodecError>
    decreases items, |items|
  {
    if items == [] then Ok([])
    else
      var n := |items| - 1;
      match DecodeItems(items[..n], tensors, blobs, depth)
      case Err(e) => Err(e)
      case Ok(values) =>
        match Decode(items[n], tensors, blobs, depth)
        case Err(e) => Err(e)
        case Ok(v) => Ok(values + [v])
  }

  function DecodeEntries(entries: seq<Member>, tensors: Tensors, blobs: Blobs, depth: nat)
    : Result<map<string, Value>, CodecError>
    decreases entries, |entries|
  {
    if entries == [] then Ok(map[])
    else
      var n := |entries| - 1;
      match DecodeEntries(entries[..n], tensors, blobs, depth)
      case Err(e) => Err(e)
      case Ok(values) =>
        match Decode(entries[n].node, tensors, blobs, depth)
        case Err(e) => Err(e)
        case Ok(v) => Ok(values[entries[n].key := v])
  }

  /******* What the transport promises *******/

  /** The value a receiver gets: bytes-like objects become bytes, and tensors are
      contiguous on the CPU. */
  function Norm(v: Value): Value {
    match v
    case Bytes(_, content) => Bytes(PlainBytes, content)
    case TensorValue(t) => TensorValue(t.(device := Cpu))
    case Geometry(kind, fields) => Geometry(kind, map k | k in fields :: Norm(fields[k]))
    case List(items) => List(NormItems(items))
    case Tuple(items) => Tuple(NormItems(items))
    case Dict(entries) => Dict(map k | k in entries :: Norm(entries[k]))
    case _ => v
  }

  function NormItems(items: seq<Value>): seq<Value> {
    seq(|items|, k requires 0 <= k < |items| => Norm(items[k]))
  }

  function NormEntries(entries: map<string, Value>): map<string, Value> {
    map k | k in entries :: Norm(entries[k])
  }

  /** The values the protocol accepts at a depth of the tree. */
  predicate Portable(v: Value, depth: nat) {
    && depth <= MAX_TREE_DEPTH
    && match v
       case Real(f) => f.Finite?
       case TensorValue(t) => t.strided
       case Geometry(kind, fields) =>
         && ValidGeometry(kind, fields) && depth + 1 <= MAX_TREE_DEPTH
         && forall k <- fields :: Portable(fields[k], depth + 2)
       case List(items) => forall k | 0 <= k < |items| :: Portable(items[k], depth + 1)
       case Tuple(items) => forall k | 0 <= k < |items| :: Portable(items[k], depth + 1)
       case Dict(entries) => forall k <- entries :: Portable(entries[k], depth + 1)
       case KeyedByOther => false
       case Unsupported => false
       case _ => true
  }

  lemma NormKeepsCameraArray(v: Value)
    requires CameraArray(v)
    ensures CameraArray(Norm(v)) && |Norm(v).items| == |v.items|
  {
    var normed := NormItems(v.items);
    assert Norm(v) == List(normed);
    forall x | x in normed ensures IsNumber(x) {
      var k :| 0 <= k < |v.items| && normed[k] == x;
      assert v.items[k] in v.items && x == Norm(v.items[k]);
    }
  }

  lemma NormKeepsGeometry(kind: GeometryKind, fields: map<string, Value>)
    requires ValidGeometry(kind, fields)
    ensures ValidGeometry(kind, NormEntries(fields))
  {
    var normed := NormEntries(fields);
    assert normed.Keys == fields.Keys;
    if kind == PaintCamerasV1 {
      forall name | name in CAMERA_ARRAYS
        ensures CameraArray(normed[name]) && |normed[name].items| == |fields[name].items|
      {
        NormKeepsCameraArray(fields[name]);
      }
    } else {
      forall name | name in normed ensures MeshField(name, normed[name]) {
        assert MeshField(name, fields[name]);
      }
    }
  }

  /** How many calls of `encode` a value takes. */
  ghost function Count(v: Value): nat
    decreases v, 1
  {
    match v
    case Geometry(_, fields) => 2 + CountKeys(v, fields.Keys)
    case List(items) => 1 + CountItems(items)
    case Tuple(items) => 1 + CountItems(items)
    case Dict(entries) => 1 + CountKeys(v, entries.Keys)
    case _ => 1
  }

  ghost function CountItems(items: seq<Value>): nat
    decreases items, |items|
  {
    if items == [] then 0
    else CountItems(items[..|items| - 1]) + Count(items[|items| - 1])
  }

  function Entries(v: Value): map<string, Value> {
    match v
    case Geometry(_, fields) => fields
    case Dict(entries) => entries
    case _ => map[]
  }

  ghost function CountKeys(v: Value, keys: set<string>): nat
    requires keys <= Entries(v).Keys
    decreases v, 0, |keys|
  {
    if keys == {} then 0
    else
      var k :| k in keys;
      assert Entries(v)[k] < v;
      Count(Entries(v)[k]) + CountKeys(v, keys - {k})
  }

  lemma {:induction false} CountKeysSplit(v: Value, keys: set<string>, k: string)
    requires k in keys && keys <= Entries(v).Keys
    ensures CountKeys(v, keys) == Count(Entries(v)[k]) + CountKeys(v, keys - {k})
    decreases |keys|
  {
    var j :| j in keys && CountKeys(v, keys) == Count(Entries(v)[j]) + CountKeys(v, keys - {j});
    if j != k {
      CountKeysSplit(v, keys - {j}, k);
      CountKeysSplit(v, keys - {k}, j);
      assert keys - {j} - {k} == keys - {k} - {j};
    }
  }

  /******* Names of side-table members *******/

  function Digit(n: nat): char
    requires n < 10
  {
    ['0', '1', '2', '3', '4', '5', '6', '7', '8', '9'][n]
  }

  function Decimal(n: nat): string {
    if n < 10 then [Digit(n)] else Decimal(n / 10) + [Digit(n % 10)]
  }

  function Zeros(n: nat): string {
    seq(n, _ => '0')
  }

  /** The format `{n:08d}`. */
  function Padded(n: nat): string {
    var digits := Decimal(n);
    if |digits| < 8 then Zeros(8 - |digits|) + digits else digits
  }

  function BlobName(n: nat): string { "blob-" + Padded(n) }

  function TensorName(n: nat): string { "tensor-" + Padded(n) }

  ghost function Reading(s: string): int {
    if s == [] then 0 else 10 * Reading(s[..|s| - 1]) + (s[|s| - 1] as int - '0' as int)
  }

  lemma {:induction false} ReadingOfDecimal(n: nat)
    ensures Reading(Decimal(n)) == n
  {
    if n >= 10 {
      ReadingOfDecimal(n / 10);
      var s := Decimal(n);
      assert s[..|s| - 1] == Decimal(n / 10);
    } else {
      assert [Digit(n)][..0] == [];
    }
  }

  lemma {:induction false} ReadingOfZeros(k: nat, s: string)
    ensures Reading(Zeros(k) + s) == Reading(s)
    decreases k + |s|
  {
    var z := Zeros(k) + s;
    if s != [] {
      assert z[..|z| - 1] == Zeros(k) + s[..|s| - 1];
      ReadingOfZeros(k, s[..|s| - 1]);
    } else if k > 0 {
      assert z[..k - 1] == Zeros(k - 1) + [];
      ReadingOfZeros(k - 1, []);
    }
  }

  /** Zero padding loses nothing, at any length. */
  lemma PaddedIsInjective(a: nat, b: nat)
    requires Padded(a) == Padded(b)
    ensures a == b
  {
    ReadingOfPadded(a);
    ReadingOfPadded(b);
  }

  lemma ReadingOfPadded(n: nat)
    ensures Reading(Padded(n)) == n
  {
    var digits := Decimal(n);
    ReadingOfDecimal(n);
    if |digits| < 8 {
      ReadingOfZeros(8 - |digits|, digits);
    }
  }

  lemma NamesAreInjective(a: nat, b: nat)
    ensures BlobName(a) == BlobName(b) ==> a == b
    ensures TensorName(a) == TensorName(b) ==> a == b
  {
    if BlobName(a) == BlobName(b) {
      assert BlobName(a)[5..] == Padded(a) && BlobName(b)[5..] == Padded(b);
      PaddedIsInjective(a, b);
    }
    if TensorName(a) == TensorName(b) {
      assert TensorName(a)[7..] == Padded(a) && TensorName(b)[7..] == Padded(b);
      PaddedIsInjective(a, b);
    }
  }

  /******* Encoding *******/

  ghost predicate Extends<T>(m: map<string, T>, m': map<string, T>) {
    forall k <- m :: k in m' && m'[k] == m[k]
  }

  /** The keys of a side table are the first |table| generated names. */
  ghost predicate Dense<T>(table: map<string, T>, name: nat -> string) {
    && (forall n: nat | n < |table| :: name(n) in table)
    && (forall k <- table :: exists n: nat :: n < |table| && name(n) == k)
  }

  lemma DenseGrows<T>(table: map<string, T>, name: nat -> string, x: T)
    requires Dense(table, name) && forall a: nat, b: nat | name(a) == name(b) :: a == b
    ensures name(|table|) !in table
    ensures Dense(table[name(|table|) := x], name)
  {
    var grown := table[name(|table|) := x];
    assert grown.Keys == table.Keys + {name(|table|)};
    assert |grown| == |table| + 1;
    forall k | k in grown ensures exists n: nat :: n < |grown| && name(n) == k {
      if k in table {
        var n: nat :| n < |table| && name(n) == k;
      } else {
        assert k == name(|table|);
      }
    }
  }

  /** Decoding `node` at `depth` gives `v` back, now and after the side tables grow. */
  ghost predicate Decodes(node: Node, tensors: Tensors, blobs: Blobs, depth: nat, v: Value) {
    forall t: Tensors, b: Blobs | Extends(tensors, t) && Extends(blobs, b) :: Decode(node, t, b, depth) == Ok(Norm(v))
  }

  ghost predicate DecodesItems(nodes: seq<Node>, tensors: Tensors, blobs: Blobs, depth: nat, vs: seq<Value>) {
    |nodes| == |vs| && forall k | 0 <= k < |vs| :: Decodes(nodes[k], tensors, blobs, depth, vs[k])
  }

  ghost predicate DecodesEntries(entries: seq<Member>, tensors: Tensors, blobs: Blobs, depth: nat,
                        vs: map<string, Value>) {
    && (forall m <- entries :: m.key in vs && Decodes(m.node, tensors, blobs, depth, vs[m.key]))
    && (forall k <- vs :: exists m :: m in entries && m.key == k)
  }

  lemma DecodesGrows(node: Node, tensors: Tensors, blobs: Blobs, tensors': Tensors, blobs': Blobs, depth: nat, v: Value)
    requires Decodes(node, tensors, blobs, depth, v) && Extends(tensors, tensors') && Extends(blobs, blobs')
    ensures Decodes(node, tensors', blobs', depth, v)
  {
    forall t: Tensors, b: Blobs | Extends(tensors', t) && Extends(blobs', b)
      ensures Decode(node, t, b, depth) == Ok(Norm(v))
    {
      assert Extends(tensors, t) && Extends(blobs, b);
    }
  }

  lemma {:induction false} DecodesItemsTogether(
    nodes: seq<Node>, tensors: Tensors, blobs: Blobs, depth: nat, vs: seq<Value>, t: Tensors, b: Blobs)
    requires DecodesItems(nodes, tensors, blobs, depth, vs) && Extends(tensors, t) && Extends(blobs, b)
    ensures DecodeItems(nodes, t, b, depth) == Ok(NormItems(vs))
  {
    if nodes != [] {
      var n := |nodes| - 1;
      DecodesItemsTogether(nodes[..n], tensors, blobs, depth, vs[..n], t, b);
      assert Decodes(nodes[n], tensors, blobs, depth, vs[n]);
      assert NormItems(vs) == NormItems(vs[..n]) + [Norm(vs[n])];
    }
  }

  ghost function KeysOf(entries: seq<Member>): set<string> {
    set m <- entries :: m.key
  }

  lemma KeysOfLast(entries: seq<Member>)
    requires entries != []
    ensures KeysOf(entries) == KeysOf(entries[..|entries| - 1]) + {entries[|entries| - 1].key}
  {
    var front, last := entries[..|entries| - 1], entries[|entries| - 1];
    forall m | m in entries ensures m in front || m == last {
      assert entries == front + [last];
    }
  }

  /** The normalised entries with the given keys. */
  ghost function NormOver(vs: map<string, Value>, keys: set<string>): map<string, Value> {
    map k | k in vs && k in keys :: Norm(vs[k])
  }

  lemma NormOverSteps(vs: map<string, Value>, keys: set<string>, k: string)
    ensures NormOver(vs, {}) == map[]
    ensures keys == vs.Keys ==> NormOver(vs, keys) == NormEntries(vs)
    ensures k in vs ==> NormOver(vs, keys + {k}) == NormOver(vs, keys)[k := Norm(vs[k])]
  {
  }

  /** Members may come in any order. */
  lemma {:induction false} DecodesEntriesTogether(
    entries: seq<Member>, tensors: Tensors, blobs: Blobs, depth: nat, vs: map<string, Value>, t: Tensors, b: Blobs)
    requires forall m <- entries :: m.key in vs && Decodes(m.node, tensors, blobs, depth, vs[m.key])
    requires Extends(tensors, t) && Extends(blobs, b)
    ensures DecodeEntries(entries, t, b, depth) == Ok(NormOver(vs, KeysOf(entries)))
  {
    hide Decode, Norm, NormOver, KeysOf;
    if entries == [] {
      NormOverSteps(vs, {}, "");
      KeysOfNone();
    } else {
      var front, last := entries[..|entries| - 1], entries[|entries| - 1];
      DecodesEntriesTogether(front, tensors, blobs, depth, vs, t, b);
      KeysOfLast(entries);
      NormOverSteps(vs, KeysOf(front), last.key);
      assert Decodes(last.node, tensors, blobs, depth, vs[last.key]);
    }
  }

  lemma KeysOfNone()
    ensures KeysOf([]) == {}
  {
  }

  lemma NormOfDict(vs: map<string, Value>)
    ensures Norm(Dict(vs)) == Dict(NormEntries(vs))
    ensures forall kind :: Norm(Geometry(kind, vs)) == Geometry(kind, NormEntries(vs))
  {
    assert (map k | k in vs :: Norm(vs[k])) == NormEntries(vs);
  }

  /** The node of a value that fits in the tree itself. */
  function ScalarNode(v: Value): (node: Node)
    requires v.NoneValue? || v.Bool? || v.Int? || (v.Real? && v.float.Finite?) || v.Text?
  {
    match v
    case NoneValue => NoneNode
    case Bool(b) => BoolNode(b)
    case Int(i) => IntNode(i)
    case Real(f) => RealNode(f.value)
    case Text(s) => TextNode(s)
  }

  lemma DecodesScalar(v: Value, tensors: Tensors, blobs: Blobs, depth: nat)
    requires v.NoneValue? || v.Bool? || v.Int? || (v.Real? && v.float.Finite?) || v.Text?
    requires depth <= MAX_TREE_DEPTH
    ensures Decodes(ScalarNode(v), tensors, blobs, depth, v)
  {
  }

  lemma DecodesStored(name: string, tensors: Tensors, blobs: Blobs, depth: nat)
    requires depth <= MAX_TREE_DEPTH
    ensures name in blobs ==> forall form :: Decodes(BlobNode(name), tensors, blobs, depth, Bytes(form, blobs[name]))
    ensures name in tensors ==>
              forall t: Tensor | tensors[name] == t.(device := Cpu) :: Decodes(TensorNode(name), tensors, blobs, depth, TensorValue(t))
  {
  }

  lemma DecodesList(nodes: seq<Node>, tensors: Tensors, blobs: Blobs, depth: nat, vs: seq<Value>)
    requires depth <= MAX_TREE_DEPTH && DecodesItems(nodes, tensors, blobs, depth + 1, vs)
    ensures Decodes(ListNode(nodes), tensors, blobs, depth, List(vs))
    ensures Decodes(TupleNode(nodes), tensors, blobs, depth, Tuple(vs))
  {
    forall t: Tensors, b: Blobs | Extends(tensors, t) && Extends(blobs, b)
      ensures DecodeItems(nodes, t, b, depth + 1) == Ok(NormItems(vs))
    {
      DecodesItemsTogether(nodes, tensors, blobs, depth + 1, vs, t, b);
    }
  }

  lemma DecodesDict(entries: seq<Member>, tensors: Tensors, blobs: Blobs, depth: nat, vs: map<string, Value>)
    requires depth <= MAX_TREE_DEPTH && DecodesEntries(entries, tensors, blobs, depth + 1, vs)
    ensures Decodes(DictNode(entries), tensors, blobs, depth, Dict(vs))
  {
    assert KeysOf(entries) == vs.Keys;
    NormOverSteps(vs, vs.Keys, "");
    NormOfDict(vs);
    hide Norm, NormEntries, NormOver, KeysOf;
    forall t: Tensors, b: Blobs | Extends(tensors, t) && Extends(blobs, b)
      ensures DecodeEntries(entries, t, b, depth + 1) == Ok(NormEntries(vs))
    {
      DecodesEntriesTogether(entries, tensors, blobs, depth + 1, vs, t, b);
    }
  }

  lemma DecodesGeometry(fields: Node, tensors: Tensors, blobs: Blobs, depth: nat, kind: GeometryKind,
                        vs: map<string, Value>)
    requires depth <= MAX_TREE_DEPTH && ValidGeometry(kind, vs) && Decodes(fields, tensors, blobs, depth + 1, Dict(vs))
    ensures Decodes(GeometryNode(kind, fields), tensors, blobs, depth, Geometry(kind, vs))
  {
    hide ValidGeometry, Norm, NormEntries;
    NormKeepsGeometry(kind, vs);
    NormOfDict(vs);
    forall t: Tensors, b: Blobs | Extends(tensors, t) && Extends(blobs, b)
      ensures Decode(GeometryNode(kind, fields), t, b, depth) == Ok(Geometry(kind, NormEntries(vs)))
    {
      assert Decode(fields, t, b, depth + 1) == Ok(Dict(NormEntries(vs)));
    }
  }

  lemma {:induction false} CountItemsGrows(vs: seq<Value>, n: nat)
    requires n <= |vs|
    ensures CountItems(vs[..n]) <= CountItems(vs)
    decreases |vs|
  {
    if n < |vs| {
      CountItemsGrows(vs[..|vs| - 1], n);
      assert vs[..|vs| - 1][..n] == vs[..n];
    } else {
      assert vs[..n] == vs;
    }
  }

  lemma {:induction false} CountKeysGrows(v: Value, some: set<string>, all: set<string>)
    requires some <= all <= Entries(v).Keys
    ensures CountKeys(v, some) <= CountKeys(v, all)
    decreases |all|
  {
    if some != all {
      assert exists k :: k in all && k !in some;
      var k :| k in all && k !in some;
      CountKeysSplit(v, all, k);
      CountKeysGrows(v, some, all - {k});
    }
  }

  lemma CountOneMore(v: Value, todo: set<string>, k: string)
    requires k in todo && todo <= Entries(v).Keys
    ensures CountKeys(v, Entries(v).Keys - (todo - {k})) == CountKeys(v, Entries(v).Keys - todo) + Count(Entries(v)[k])
    ensures CountKeys(v, Entries(v).Keys - (todo - {k})) <= CountKeys(v, Entries(v).Keys)
    ensures Entries(v).Keys - (todo - {k}) == Entries(v).Keys - todo + {k}
  {
    var done := Entries(v).Keys - (todo - {k});
    assert done - {k} == Entries(v).Keys - todo;
    CountKeysSplit(v, done, k);
    CountKeysGrows(v, done, Entries(v).Keys);
  }

  class Encoder {
    var tensors: Tensors
    var blobs: Blobs
    var items: nat

    ghost predicate Valid()
      reads this
    {
      Dense(tensors, TensorName) && Dense(blobs, BlobName)
    }

    constructor ()
      ensures Valid() && tensors == map[] && blobs == map[] && items == 0
    {
      tensors, blobs, items := map[], map[], 0;
    }

    /** Accepts exactly the portable values that fit in the item budget; the node it
        returns decodes to the value against the side tables and every later growth of
        them. */
    method Encode(value: Value, depth: nat) returns (r: Result<Node, CodecError>)
      requires Valid()
      modifies this
      ensures Valid() && Extends(old(tensors), tensors) && Extends(old(blobs), blobs)
      ensures r.Ok? <==> Portable(value, depth) && old(items) + Count(value) <= MAX_TREE_ITEMS
      ensures r.Ok? ==> items == old(items) + Count(value) && Decodes(r.value, tensors, blobs, depth, value)
      decreases value, 3
    {
      if depth > MAX_TREE_DEPTH {
        return Err(TooDeep);
      }
      items := items + 1;
      if items > MAX_TREE_ITEMS {
        return Err(TooManyItems);
      }
      hide Decodes, Dense, ValidGeometry;
      match value {
        case Real(NotFinite) => return Err(NotFiniteFloat);
        case Bytes(_, content) =>
          r := PutBlob(content);
          DecodesStored(r.value.blob, tensors, blobs, depth);
        case TensorValue(t) =>
          if !t.strided {
            return Err(NotStrided);
          }
          r := PutTensor(t.(device := Cpu));
          DecodesStored(r.value.name, tensors, blobs, depth);
        case Geometry(_, _) => r := EncodeGeometry(value, depth);
        case List(_) => r := EncodeSequence(value, depth);
        case Tuple(_) => r := EncodeSequence(value, depth);
        case Dict(_) => r := EncodeDict(value, depth);
        case KeyedByOther => return Err(NonStringKey);
        case Unsupported => return Err(UnsupportedValue);
        case _ =>
          DecodesScalar(value, tensors, blobs, depth);
          r := Ok(ScalarNode(value));
      }
    }

    /** The branches of `encode` on containers; the call itself is already counted. */
    method EncodeSequence(value: Value, depth: nat) returns (r: Result<Node, CodecError>)
      requires Valid() && (value.List? || value.Tuple?) && depth <= MAX_TREE_DEPTH && 1 <= items <= MAX_TREE_ITEMS
      modifies this
      ensures Valid() && Extends(old(tensors), tensors) && Extends(old(blobs), blobs)
      ensures r.Ok? <==> Portable(value, depth) && old(items) - 1 + Count(value) <= MAX_TREE_ITEMS
      ensures r.Ok? ==> items == old(items) - 1 + Count(value) && Decodes(r.value, tensors, blobs, depth, value)
      decreases value, 2
    {
      hide Decodes, Dense;
      var nodes := EncodeItems(value.items, depth + 1);
      if nodes.Err? {
        return Err(nodes.error);
      }
      DecodesList(nodes.value, tensors, blobs, depth, value.items);
      r := Ok(if value.List? then ListNode(nodes.value) else TupleNode(nodes.value));
    }

    method EncodeDict(value: Value, depth: nat) returns (r: Result<Node, CodecError>)
      requires Valid() && value.Dict? && depth <= MAX_TREE_DEPTH && 1 <= items <= MAX_TREE_ITEMS
      modifies this
      ensures Valid() && Extends(old(tensors), tensors) && Extends(old(blobs), blobs)
      ensures r.Ok? <==> Portable(value, depth) && old(items) - 1 + Count(value) <= MAX_TREE_ITEMS
      ensures r.Ok? ==> items == old(items) - 1 + Count(value) && Decodes(r.value, tensors, blobs, depth, value)
      decreases value, 2
    {
      hide Decodes, Dense;
      var members := EncodeEntries(value, depth + 1);
      if members.Err? {
        return Err(members.error);
      }
      DecodesDict(members.value, tensors, blobs, depth, value.entries);
      r := Ok(DictNode(members.value));
    }

    method EncodeGeometry(value: Value, depth: nat) returns (r: Result<Node, CodecError>)
      requires Valid() && value.Geometry? && depth <= MAX_TREE_DEPTH && 1 <= items <= MAX_TREE_ITEMS
      modifies this
      ensures Valid() && Extends(old(tensors), tensors) && Extends(old(blobs), blobs)
      ensures r.Ok? <==> Portable(value, depth) && old(items) - 1 + Count(value) <= MAX_TREE_ITEMS
      ensures r.Ok? ==> items == old(items) - 1 + Count(value) && Decodes(r.value, tensors, blobs, depth, value)
      decreases value, 2
    {
      hide Decodes, Dense, ValidGeometry;
      if !ValidGeometry(value.geometry, value.fields) {
        return Err(InvalidGeometry);
      }
      var node := EncodeFields(value, depth + 1);
      if node.Err? {
        return Err(node.error);
      }
      DecodesGeometry(node.value, tensors, blobs, depth, value.geometry, value.fields);
      r := Ok(GeometryNode(value.geometry, node.value));
    }

    /** A byte string goes to a name no blob has yet. */
    method PutBlob(content: seq<Byte>) returns (r: Result<Node, CodecError>)
      requires Valid()
      modifies this`blobs
      ensures Valid() && Extends(old(blobs), blobs)
      ensures BlobName(|old(blobs)|) !in old(blobs) && blobs == old(blobs)[BlobName(|old(blobs)|) := content]
      ensures r == Ok(BlobNode(BlobName(|old(blobs)|)))
    {
      forall a: nat, b: nat | BlobName(a) == BlobName(b) ensures a == b {
        NamesAreInjective(a, b);
      }
      DenseGrows(blobs, BlobName, content);
      var name := BlobName(|blobs|);
      blobs := blobs[name := content];
      r := Ok(BlobNode(name));
    }

    method PutTensor(t: Tensor) returns (r: Result<Node, CodecError>)
      requires Valid()
      modifies this`tensors
      ensures Valid() && Extends(old(tensors), tensors)
      ensures TensorName(|old(tensors)|) !in old(tensors) && tensors == old(tensors)[TensorName(|old(tensors)|) := t]
      ensures r == Ok(TensorNode(TensorName(|old(tensors)|)))
    {
      forall a: nat, b: nat | TensorName(a) == TensorName(b) ensures a == b {
        NamesAreInjective(a, b);
      }
      DenseGrows(tensors, TensorName, t);
      var name := TensorName(|tensors|);
      tensors := tensors[name := t];
      r := Ok(TensorNode(name));
    }

    /** The nested call of `encode` on the dict of a native object's attributes. */
    method EncodeFields(value: Value, depth: nat) returns (r: Result<Node, CodecError>)
      requires Valid() && value.Geometry?
      modifies this
      ensures Valid() && Extends(old(tensors), tensors) && Extends(old(blobs), blobs)
      ensures r.Ok? <==>
                && depth <= MAX_TREE_DEPTH
                && (forall k <- value.fields :: Portable(value.fields[k], depth + 1))
                && old(items) + 1 + CountKeys(value, value.fields.Keys) <= MAX_TREE_ITEMS
      ensures r.Ok? ==>
                && items == old(items) + 1 + CountKeys(value, value.fields.Keys)
                && Decodes(r.value, tensors, blobs, depth, Dict(value.fields))
      decreases value, 1
    {
      hide Decodes, Dense, Portable, Count;
      if depth > MAX_TREE_DEPTH {
        return Err(TooDeep);
      }
      items := items + 1;
      if items > MAX_TREE_ITEMS {
        return Err(TooManyItems);
      }
      var members := EncodeEntries(value, depth + 1);
      if members.Err? {
        return Err(members.error);
      }
      DecodesDict(members.value, tensors, blobs, depth, value.fields);
      r := Ok(DictNode(members.value));
    }

    method EncodeItems(vs: seq<Value>, depth: nat) returns (r: Result<seq<Node>, CodecError>)
      requires Valid() && items <= MAX_TREE_ITEMS
      modifies this
      ensures Valid() && Extends(old(tensors), tensors) && Extends(old(blobs), blobs)
      ensures r.Ok? <==>
                && (forall k | 0 <= k < |vs| :: Portable(vs[k], depth))
                && old(items) + CountItems(vs) <= MAX_TREE_ITEMS
      ensures r.Ok? ==> items == old(items) + CountItems(vs) && DecodesItems(r.value, tensors, blobs, depth, vs)
      decreases vs, 0
    {
      hide Decodes, Dense, Portable, Count;
      var nodes: seq<Node> := [];
      for n := 0 to |vs|
        invariant Valid() && Extends(old(tensors), tensors) && Extends(old(blobs), blobs)
        invariant items == old(items) + CountItems(vs[..n]) <= MAX_TREE_ITEMS
        invariant forall k | 0 <= k < n :: Portable(vs[k], depth)
        invariant DecodesItems(nodes, tensors, blobs, depth, vs[..n])
      {
        ghost var t, b := tensors, blobs;
        assert vs[..n + 1][..n] == vs[..n];
        CountItemsGrows(vs, n + 1);
        var node := Encode(vs[n], depth);
        if node.Err? {
          return Err(node.error);
        }
        forall k | 0 <= k < n ensures Decodes(nodes[k], tensors, blobs, depth, vs[k]) {
          assert vs[..n][k] == vs[k];
          DecodesGrows(nodes[k], t, b, tensors, blobs, depth, vs[k]);
        }
        nodes := nodes + [node.value];
      }
      assert vs[..|vs|] == vs;
      r := Ok(nodes);
    }

    /** The source goes through the keys in sorted order; any order gives the same
        guarantees. */
    method EncodeEntries(value: Value, depth: nat) returns (r: Result<seq<Member>, CodecError>)
      requires Valid() && items <= MAX_TREE_ITEMS
      modifies this
      ensures Valid() && Extends(old(tensors), tensors) && Extends(old(blobs), blobs)
      ensures r.Ok? <==>
                && (forall k <- Entries(value) :: Portable(Entries(value)[k], depth))
                && old(items) + CountKeys(value, Entries(value).Keys) <= MAX_TREE_ITEMS
      ensures r.Ok? ==>
                && items == old(items) + CountKeys(value, Entries(value).Keys)
                && DecodesEntries(r.value, tensors, blobs, depth, Entries(value))
      decreases value, 0
    {
      var entries := Entries(value);
      var members: seq<Member> := [];
      var todo := entries.Keys;
      assert CountKeys(value, {}) == 0 && entries.Keys - todo == {};
      EncodedNone(tensors, blobs, depth, entries);
      hide Decodes, Dense, Portable, Count, CountKeys, EncodedSoFar;
      while todo != {}
        invariant Valid() && Extends(old(tensors), tensors) && Extends(old(blobs), blobs)
        invariant todo <= entries.Keys
        invariant items == old(items) + CountKeys(value, entries.Keys - todo) <= MAX_TREE_ITEMS
        invariant forall k <- entries.Keys - todo :: Portable(entries[k], depth)
        invariant EncodedSoFar(members, tensors, blobs, depth, entries, todo)
        decreases |todo|
      {
        var k :| k in todo;
        ghost var t, b := tensors, blobs;
        CountOneMore(value, todo, k);
        assert entries[k] < value;
        var node := Encode(entries[k], depth);
        if node.Err? {
          return Err(node.error);
        }
        EncodedOneMore(members, t, b, tensors, blobs, depth, entries, todo, Member(k, node.value));
        members := members + [Member(k, node.value)];
        todo := todo - {k};
      }
      assert entries.Keys - todo == entries.Keys;
      EncodedAll(members, tensors, blobs, depth, entries);
      r := Ok(members);
    }
  }

  ghost predicate EncodedSoFar(
    members: seq<Member>, tensors: Tensors, blobs: Blobs, depth: nat, vs: map<string, Value>, todo: set<string>)
  {
    && (forall m <- members :: m.key in vs && Decodes(m.node, tensors, blobs, depth, vs[m.key]))
    && (forall k <- vs.Keys - todo :: exists m :: m in members && m.key == k)
  }

  lemma EncodedNone(tensors: Tensors, blobs: Blobs, depth: nat, vs: map<string, Value>)
    ensures EncodedSoFar([], tensors, blobs, depth, vs, vs.Keys)
  {
  }

  lemma EncodedAll(members: seq<Member>, tensors: Tensors, blobs: Blobs, depth: nat, vs: map<string, Value>)
    requires EncodedSoFar(members, tensors, blobs, depth, vs, {})
    ensures DecodesEntries(members, tensors, blobs, depth, vs)
  {
    assert vs.Keys - {} == vs.Keys;
  }

  lemma EncodedOneMore(
    members: seq<Member>, t: Tensors, b: Blobs, tensors: Tensors, blobs: Blobs, depth: nat,
    vs: map<string, Value>, todo: set<string>, last: Member)
    requires EncodedSoFar(members, t, b, depth, vs, todo) && Extends(t, tensors) && Extends(b, blobs)
    requires last.key in vs && Decodes(last.node, tensors, blobs, depth, vs[last.key])
    ensures EncodedSoFar(members + [last], tensors, blobs, depth, vs, todo - {last.key})
  {
    forall m | m in members ensures Decodes(m.node, tensors, blobs, depth, vs[m.key]) {
      DecodesGrows(m.node, t, b, tensors, blobs, depth, vs[m.key]);
    }
    forall k | k in vs.Keys - (todo - {last.key}) ensures exists m :: m in members + [last] && m.key == k {
      if k == last.key {
        assert last in members + [last];
      } else {
        assert k in vs.Keys - todo;
        var m :| m in members && m.key == k;
        assert m in members + [last];
      }
    }
  }
}
