/** The private-data-free shape of a workflow graph
    (cloud_offload/recommendation_history.py).

    `node_hash` hashes a node from its class, its scalar inputs and the hashes of
    the nodes it links to.  It shares one memo table across the whole workflow and
    carries the set of nodes being hashed, so that it stops on cyclic graphs too.

    SHA-256 over canonical JSON is taken to be collision free, so a digest is the
    term it was computed from.  */
module WorkflowShape {
  import opened Prelude

  /** What `_safe_scalar` keeps of an input that is not a link. */
  datatype Fact = Fact(json: string)

  /** A two-element list whose second element is an integer. */
  datatype LinkRef = LinkRef(source: string, slot: int)

  /** One named input: `pair` when its value has the form of a link, and `fact`
      what `_safe_scalar` returns for it when it is not one. */
  datatype Input = Input(name: string, pair: Option<LinkRef>, fact: Option<Fact>)

  /** `inputs` are in the order of their names, as the source sorts them. */
  datatype Node = Node(classType: string, inputs: seq<Input>)

  type Graph = map<string, Node>

  datatype Digest =
    | Shape(classType: string, facts: seq<(string, Fact)>, links: seq<LinkDigest>)
    | Cycle(classType: string)

  datatype LinkDigest = LinkDigest(input: string, source: Digest, output: int)

  type Memo = map<string, Digest>

  /** A pair is a link only when its first element names a node. */
  predicate IsLink(g: Graph, i: Input) {
    i.pair.Some? && i.pair.value.source in g
  }

  /******* What the memoised code computes *******/

  datatype Hashed = Hashed(digest: Digest, memo: Memo)

  datatype Folded = Folded(facts: seq<(string, Fact)>, links: seq<LinkDigest>, memo: Memo)

  function HashNode(g: Graph, id: string, stack: set<string>, memo: Memo): Hashed
    requires id in g
    decreases g.Keys - stack, 0, 0
  {
    if id in memo then
      Hashed(memo[id], memo)
    else if id in stack then
      Hashed(Cycle(g[id].classType), memo)
    else
      assert id in g.Keys - stack && id !in g.Keys - (stack + {id});
      var r := HashInputs(g, g[id].inputs, stack + {id}, memo);
      var d := Shape(g[id].classType, r.facts, r.links);
      Hashed(d, r.memo[id := d])
  }

  function HashInputs(g: Graph, inputs: seq<Input>, stack: set<string>, memo: Memo): Folded
    decreases g.Keys - stack, 1, |inputs|
  {
    if inputs == [] then
      Folded([], [], memo)
    else
      var n := |inputs| - 1;
      var before := HashInputs(g, inputs[..n], stack, memo);
      var i := inputs[n];
      if IsLink(g, i) then
        var source := HashNode(g, i.pair.value.source, stack, before.memo);
        Folded(before.facts, before.links + [LinkDigest(i.name, source.digest, i.pair.value.slot)], source.memo)
      else if i.fact.Some? then
        Folded(before.facts + [(i.name, i.fact.value)], before.links, before.memo)
      else
        before
  }

  /** The hashes of the nodes in `order`, one memo table for all of them. */
  function HashAll(g: Graph, order: seq<string>, memo: Memo): (seq<Digest>, Memo)
    requires forall id <- order :: id in g
  {
    if order == [] then
      ([], memo)
    else
      var n := |order| - 1;
      var (digests, m) := HashAll(g, order[..n], memo);
      var last := HashNode(g, order[n], {}, m);
      (digests + [last.digest], last.memo)
  }

  class ShapeHasher {
    const nodes: Graph
    var memo: Memo

    constructor (nodes: Graph)
      ensures this.nodes == nodes && memo == map[]
    {
      this.nodes := nodes;
      memo := map[];
    }

    /** Terminates on every graph, cyclic or not: each recursive call adds a node to
        the stack. */
    method NodeHash(id: string, stack: set<string>) returns (d: Digest)
      requires id in nodes
      modifies this
      decreases nodes.Keys - stack
      ensures Hashed(d, memo) == HashNode(nodes, id, stack, old(memo))
    {
      if id in memo {
        return memo[id];
      }
      var node := nodes[id];
      if id in stack {
        return Cycle(node.classType);
      }
      var facts, links := [], [];
      var nextStack := stack + {id};
      assert id in nodes.Keys - stack && id !in nodes.Keys - nextStack;
      for k := 0 to |node.inputs|
        invariant Folded(facts, links, memo) == HashInputs(nodes, node.inputs[..k], nextStack, old(memo))
      {
        var i := node.inputs[k];
        assert node.inputs[..k + 1][..k] == node.inputs[..k];
        if i.pair.Some? && i.pair.value.source in nodes {
          var source := NodeHash(i.pair.value.source, nextStack);
          links := links + [LinkDigest(i.name, source, i.pair.value.slot)];
        } else if i.fact.Some? {
          facts := facts + [(i.name, i.fact.value)];
        }
      }
      assert node.inputs[..|node.inputs|] == node.inputs;
      d := Shape(node.classType, facts, links);
      memo := memo[id := d];
    }

    /** The digests of all nodes.  The source returns them sorted, so what a caller
        sees is their multiset. */
    method WorkflowShape(order: seq<string>) returns (digests: seq<Digest>)
      requires forall id <- order :: id in nodes
      modifies this
      ensures (digests, memo) == HashAll(nodes, order, old(memo))
    {
      digests := [];
      for k := 0 to |order|
        invariant (digests, memo) == HashAll(nodes, order[..k], old(memo))
      {
        assert order[..k + 1][..k] == order[..k];
        var d := NodeHash(order[k], {});
        digests := digests + [d];
      }
      assert order[..|order|] == order;
    }
  }

  /******* The plain recursive definition *******/

  function PlainFacts(g: Graph, inputs: seq<Input>): seq<(string, Fact)> {
    if inputs == [] then []
    else
      var n := |inputs| - 1;
      PlainFacts(g, inputs[..n]) +
      (if !IsLink(g, inputs[n]) && inputs[n].fact.Some? then [(inputs[n].name, inputs[n].fact.value)] else [])
  }

  ghost predicate Defined(g: Graph, inputs: seq<Input>, h: Memo) {
    forall i <- inputs | IsLink(g, i) :: i.pair.value.source in h
  }

  /** The digest that a node's link contributes: that of its source, or the cycle marker if the
      source is the node itself and self-links are `cut`. */
  ghost function SourceDigest(g: Graph, id: string, source: string, h: Memo, cut: bool): Digest
    requires id in g && source in h
  {
    if cut && source == id then Cycle(g[id].classType) else h[source]
  }

  ghost function PlainLinks(g: Graph, id: string, inputs: seq<Input>, h: Memo, cut: bool): seq<LinkDigest>
    requires id in g && Defined(g, inputs, h)
  {
    if inputs == [] then []
    else
      var n := |inputs| - 1;
      PlainLinks(g, id, inputs[..n], h, cut) +
      (if IsLink(g, inputs[n])
       then [LinkDigest(inputs[n].name, SourceDigest(g, id, inputs[n].pair.value.source, h, cut), inputs[n].pair.value.slot)]
       else [])
  }

  /** `h` satisfies the recursive definition of a node's hash at every node: no memo and no
      stack; a cycle marker stands for self-links if they are `cut`, and for nothing else. */
  ghost predicate Solves(g: Graph, h: Memo, cut: bool) {
    && h.Keys == g.Keys
    && forall id <- g ::
         h[id] == Shape(g[id].classType, PlainFacts(g, g[id].inputs), PlainLinks(g, id, g[id].inputs, h, cut))
  }

  /** `rank` decreases along every link, except for self-links if they are `cut`. */
  ghost predicate Ranked(g: Graph, rank: map<string, nat>, cut: bool) {
    && rank.Keys == g.Keys
    && forall id, i | id in g && i in g[id].inputs && IsLink(g, i) && !(cut && i.pair.value.source == id) ::
         rank[i.pair.value.source] < rank[id]
  }

  /** No cycles, or none but self-links. */
  ghost predicate Acyclic(g: Graph, cut: bool) {
    exists rank :: Ranked(g, rank, cut)
  }

  /** Every entry of `memo` is the plain hash of its node. */
  ghost predicate Sound(memo: Memo, h: Memo) {
    forall id <- memo :: id in h && memo[id] == h[id]
  }

  /** Nodes on the stack cannot be reached again from a node of rank below `r`. */
  ghost predicate Above(stack: set<string>, rank: map<string, nat>, r: nat) {
    forall s <- stack :: s in rank && r <= rank[s]
  }

  /** Only nodes of rank below `r` were added. */
  ghost predicate AddsBelow(memo: Memo, memo': Memo, rank: map<string, nat>, r: nat) {
    forall id <- memo' | id !in memo :: id in rank && rank[id] < r
  }

  lemma {:induction false} HashNodeIsPlain(g: Graph, rank: map<string, nat>, h: Memo, id: string, stack: set<string>,
                        memo: Memo, cut: bool)
    requires Ranked(g, rank, cut) && Solves(g, h, cut) && Sound(memo, h)
    requires id in g && Above(stack, rank, rank[id] + 1)
    ensures var r := HashNode(g, id, stack, memo);
            && r.digest == h[id] && Sound(r.memo, h) && memo.Keys + {id} <= r.memo.Keys
            && AddsBelow(memo, r.memo, rank, rank[id] + 1)
    decreases g.Keys - stack, 0, 0
  {
    if id !in memo {
      assert id !in stack;
      assert id in g.Keys - stack && id !in g.Keys - (stack + {id});
      HashInputsArePlain(g, rank, h, id, g[id].inputs, stack + {id}, memo, cut);
    }
  }

  lemma {:induction false} HashInputsArePlain(
    g: Graph, rank: map<string, nat>, h: Memo, id: string, inputs: seq<Input>, stack: set<string>, memo: Memo, cut: bool)
    requires Ranked(g, rank, cut) && Solves(g, h, cut) && Sound(memo, h) && id !in memo && id in stack
    requires id in g && inputs <= g[id].inputs && Above(stack, rank, rank[id])
    ensures var r := HashInputs(g, inputs, stack, memo);
            && r.facts == PlainFacts(g, inputs) && r.links == PlainLinks(g, id, inputs, h, cut)
            && Sound(r.memo, h) && memo.Keys <= r.memo.Keys && AddsBelow(memo, r.memo, rank, rank[id])
    decreases g.Keys - stack, 1, |inputs|
  {
    if inputs != [] {
      var n := |inputs| - 1;
      HashInputsArePlain(g, rank, h, id, inputs[..n], stack, memo, cut);
      var i := inputs[n];
      if IsLink(g, i) && !(cut && i.pair.value.source == id) {
        assert i == g[id].inputs[n];
        HashNodeIsPlain(g, rank, h, i.pair.value.source, stack, HashInputs(g, inputs[..n], stack, memo).memo, cut);
      }
    }
  }

  lemma {:induction false} HashAllIsPlain(g: Graph, rank: map<string, nat>, h: Memo, order: seq<string>,
                        memo: Memo, cut: bool)
    requires Ranked(g, rank, cut) && Solves(g, h, cut) && Sound(memo, h)
    requires forall id <- order :: id in g
    ensures var r := HashAll(g, order, memo);
            && |r.0| == |order| && (forall k | 0 <= k < |order| :: r.0[k] == h[order[k]])
            && Sound(r.1, h) && (forall id <- order :: id in r.1)
  {
    hide Ranked, HashNode, PlainFacts, PlainLinks;
    if order != [] {
      var n := |order| - 1;
      HashAllIsPlain(g, rank, h, order[..n], memo, cut);
      HashNodeIsPlain(g, rank, h, order[n], {}, HashAll(g, order[..n], memo).1, cut);
      forall id | id in order ensures id in HashAll(g, order, memo).1 {
        if id != order[n] { assert id in order[..n]; }
      }
    }
  }

  /******* The plain definition has a solution exactly on acyclic workflows *******/

  ghost function PlainHash(g: Graph, rank: map<string, nat>, id: string, cut: bool): Digest
    requires Ranked(g, rank, cut) && id in g
    decreases rank[id], 1
  {
    var h := PlainBelow(g, rank, rank[id], cut)[id := Cycle(g[id].classType)];
    Shape(g[id].classType, PlainFacts(g, g[id].inputs), PlainLinks(g, id, g[id].inputs, h, cut))
  }

  ghost function PlainBelow(g: Graph, rank: map<string, nat>, r: nat, cut: bool): Memo
    requires Ranked(g, rank, cut)
    decreases r, 0
  {
    map s | s in g && rank[s] < r :: PlainHash(g, rank, s, cut)
  }

  lemma {:induction false} PlainLinksAgree(g: Graph, id: string, inputs: seq<Input>, h: Memo, h': Memo, cut: bool)
    requires id in g && Defined(g, inputs, h) && Defined(g, inputs, h')
    requires forall i <- inputs | IsLink(g, i) && !(cut && i.pair.value.source == id) ::
               h[i.pair.value.source] == h'[i.pair.value.source]
    ensures PlainLinks(g, id, inputs, h, cut) == PlainLinks(g, id, inputs, h', cut)
  {
    if inputs != [] {
      PlainLinksAgree(g, id, inputs[..|inputs| - 1], h, h', cut);
    }
  }

  lemma AcyclicHasSolution(g: Graph, rank: map<string, nat>, cut: bool) returns (h: Memo)
    requires Ranked(g, rank, cut)
    ensures Solves(g, h, cut)
  {
    h := map id | id in g :: PlainHash(g, rank, id, cut);
    forall id | id in g
      ensures h[id] == Shape(g[id].classType, PlainFacts(g, g[id].inputs), PlainLinks(g, id, g[id].inputs, h, cut))
    {
      PlainLinksAgree(g, id, g[id].inputs, PlainBelow(g, rank, rank[id], cut)[id := Cycle(g[id].classType)], h, cut);
    }
  }

  ghost function Depth(d: Digest): nat {
    if d.Shape? then 1 + MaxDepth(d.links) else 0
  }

  ghost function MaxDepth(links: seq<LinkDigest>): nat {
    if links == [] then 0
    else
      var first, rest := Depth(links[0].source), MaxDepth(links[1..]);
      if first < rest then rest else first
  }

  lemma {:induction false} DepthOfLink(links: seq<LinkDigest>, k: nat)
    requires k < |links|
    ensures Depth(links[k].source) <= MaxDepth(links)
  {
    if k > 0 {
      DepthOfLink(links[1..], k - 1);
    }
  }

  lemma {:induction false} LinkIsHashed(g: Graph, id: string, inputs: seq<Input>, h: Memo, cut: bool, i: Input)
    returns (k: nat)
    requires id in g && Defined(g, inputs, h) && i in inputs && IsLink(g, i)
    ensures k < |PlainLinks(g, id, inputs, h, cut)|
    ensures PlainLinks(g, id, inputs, h, cut)[k] ==
            LinkDigest(i.name, SourceDigest(g, id, i.pair.value.source, h, cut), i.pair.value.slot)
  {
    var n := |inputs| - 1;
    if i == inputs[n] {
      k := |PlainLinks(g, id, inputs, h, cut)| - 1;
    } else {
      assert i in inputs[..n];
      k := LinkIsHashed(g, id, inputs[..n], h, cut, i);
    }
  }

  /** Every link in a digest is that of an input that names a node. */
  lemma {:induction false} LinkComesFrom(g: Graph, id: string, inputs: seq<Input>, h: Memo, cut: bool, k: nat)
    returns (i: Input)
    requires id in g && Defined(g, inputs, h) && k < |PlainLinks(g, id, inputs, h, cut)|
    ensures i in inputs && i.pair.Some? && i.pair.value.source in g && i.pair.value.source in h
    ensures PlainLinks(g, id, inputs, h, cut)[k] ==
            LinkDigest(i.name, SourceDigest(g, id, i.pair.value.source, h, cut), i.pair.value.slot)
  {
    var n := |inputs| - 1;
    if k < |PlainLinks(g, id, inputs[..n], h, cut)| {
      i := LinkComesFrom(g, id, inputs[..n], h, cut, k);
    } else {
      i := inputs[n];
    }
  }

  /** The facts in a digest are those of the inputs that name no node. */
  lemma {:induction false} FactsExactly(g: Graph, inputs: seq<Input>, fact: (string, Fact))
    ensures fact in PlainFacts(g, inputs) <==>
              exists i <- inputs :: i.name == fact.0 && i.fact == Some(fact.1)
                                    && !(i.pair.Some? && i.pair.value.source in g)
  {
    if inputs != [] {
      var front, last := inputs[..|inputs| - 1], inputs[|inputs| - 1];
      FactsExactly(g, front, fact);
      assert inputs == front + [last];
      assert last in inputs;
      if i :| i in front && i.name == fact.0 && i.fact == Some(fact.1) && !(i.pair.Some? && i.pair.value.source in g) {
        assert i in inputs;
      }
    }
  }

  /** Nodes with equal hashes have the same class, the same facts under the same names, and link
      through the same inputs to sources of equal hashes and the same outputs. */
  lemma EqualHashesLinkAlike(g: Graph, h: Memo, cut: bool, a: string, b: string)
    requires Solves(g, h, cut) && a in g && b in g && h[a] == h[b]
    ensures g[a].classType == g[b].classType
    ensures forall i <- g[a].inputs | i.pair.Some? && i.pair.value.source in g ::
              exists j <- g[b].inputs ::
                && j.name == i.name && j.pair.Some? && j.pair.value.source in g && j.pair.value.slot == i.pair.value.slot
                && SourceDigest(g, b, j.pair.value.source, h, cut) == SourceDigest(g, a, i.pair.value.source, h, cut)
    ensures forall i <- g[a].inputs | !(i.pair.Some? && i.pair.value.source in g) && i.fact.Some? ::
              exists j <- g[b].inputs :: j.name == i.name && j.fact == i.fact && !(j.pair.Some? && j.pair.value.source in g)
  {
    assert PlainFacts(g, g[a].inputs) == PlainFacts(g, g[b].inputs);
    assert PlainLinks(g, a, g[a].inputs, h, cut) == PlainLinks(g, b, g[b].inputs, h, cut);
    hide PlainFacts, PlainLinks, SourceDigest;
    forall i <- g[a].inputs | i.pair.Some? && i.pair.value.source in g
      ensures exists j <- g[b].inputs ::
                && j.name == i.name && j.pair.Some? && j.pair.value.source in g && j.pair.value.slot == i.pair.value.slot
                && SourceDigest(g, b, j.pair.value.source, h, cut) == SourceDigest(g, a, i.pair.value.source, h, cut)
    {
      var k := LinkIsHashed(g, a, g[a].inputs, h, cut, i);
      var j := LinkComesFrom(g, b, g[b].inputs, h, cut, k);
    }
    forall i <- g[a].inputs | !(i.pair.Some? && i.pair.value.source in g) && i.fact.Some?
      ensures exists j <- g[b].inputs :: j.name == i.name && j.fact == i.fact && !(j.pair.Some? && j.pair.value.source in g)
    {
      FactsExactly(g, g[a].inputs, (i.name, i.fact.value));
      FactsExactly(g, g[b].inputs, (i.name, i.fact.value));
    }
  }

  /** A digest is a finite term, so only an acyclic graph has a solution. */
  lemma SolutionMeansAcyclic(g: Graph, h: Memo, cut: bool)
    requires Solves(g, h, cut)
    ensures Acyclic(g, cut)
  {
    var rank := map id | id in g :: Depth(h[id]);
    forall id, i | id in g && i in g[id].inputs && IsLink(g, i) && !(cut && i.pair.value.source == id)
      ensures rank[i.pair.value.source] < rank[id]
    {
      var k := LinkIsHashed(g, id, g[id].inputs, h, cut, i);
      DepthOfLink(h[id].links, k);
    }
    assert Ranked(g, rank, cut);
  }

  /** The memoised hash with its cycle guard agrees with the plain recursive definition at every
      node if and only if the workflow is acyclic; with self-links cut, if and only if it has no
      cycles but self-links. */
  lemma MemoisedHashIsPlainIffAcyclic(g: Graph, order: seq<string>, cut: bool)
    requires forall id :: id in g <==> id in order
    ensures Acyclic(g, cut) <==> Solves(g, HashAll(g, order, map[]).1, cut)
  {
    var m := HashAll(g, order, map[]).1;
    if Acyclic(g, cut) {
      var rank :| Ranked(g, rank, cut);
      var h := AcyclicHasSolution(g, rank, cut);
      HashAllIsPlain(g, rank, h, order, map[], cut);
      assert m == h;
    }
    if Solves(g, m, cut) {
      SolutionMeansAcyclic(g, m, cut);
    }
  }

  /******* Names and order do not matter without cycles of several nodes *******/

  ghost predicate Injective(f: map<string, string>) {
    forall a, b | a in f && b in f && f[a] == f[b] :: a == b
  }

  /** `i'` is `i` with the node it links to renamed. */
  ghost predicate RenamedInput(g: Graph, g': Graph, f: map<string, string>, i: Input, i': Input)
    requires f.Keys == g.Keys
  {
    && i'.name == i.name
    && (IsLink(g, i) <==> IsLink(g', i'))
    && if IsLink(g, i) then i'.pair.value == LinkRef(f[i.pair.value.source], i.pair.value.slot) else i'.fact == i.fact
  }

  /** `g'` is `g` with its nodes renamed by `f`; no input becomes, or stops being, a link. */
  ghost predicate Renamed(g: Graph, g': Graph, f: map<string, string>) {
    && f.Keys == g.Keys && f.Values == g'.Keys && Injective(f)
    && forall id <- g ::
         && g'[f[id]].classType == g[id].classType
         && |g'[f[id]].inputs| == |g[id].inputs|
         && forall k | 0 <= k < |g[id].inputs| :: RenamedInput(g, g', f, g[id].inputs[k], g'[f[id]].inputs[k])
  }

  lemma {:induction false} RenamedInputsAgree(
    g: Graph, g': Graph, f: map<string, string>, h: Memo, h': Memo, id: string, inputs: seq<Input>, inputs': seq<Input>,
    cut: bool)
    requires f.Keys == g.Keys == h.Keys && Injective(f) && id in g && f[id] in g'
    requires g'[f[id]].classType == g[id].classType
    requires forall id <- g :: f[id] in h' && h'[f[id]] == h[id]
    requires |inputs| == |inputs'|
    requires forall k | 0 <= k < |inputs| :: RenamedInput(g, g', f, inputs[k], inputs'[k])
    ensures PlainFacts(g, inputs) == PlainFacts(g', inputs')
    ensures Defined(g', inputs', h') && PlainLinks(g, id, inputs, h, cut) == PlainLinks(g', f[id], inputs', h', cut)
  {
    if inputs != [] {
      var n := |inputs| - 1;
      RenamedInputsAgree(g, g', f, h, h', id, inputs[..n], inputs'[..n], cut);
      assert RenamedInput(g, g', f, inputs[n], inputs'[n]);
      assert inputs' == inputs'[..n] + [inputs'[n]];
    }
  }

  /** Renaming carries the solution over. */
  lemma RenamedSolution(g: Graph, g': Graph, f: map<string, string>, h: Memo, cut: bool) returns (h': Memo)
    requires Renamed(g, g', f) && Solves(g, h, cut)
    ensures Solves(g', h', cut) && forall id <- g :: f[id] in h' && h'[f[id]] == h[id]
  {
    h' := map b | b in f.Values :: h[Preimage(f, b)];
    forall id | id in g ensures f[id] in h' && h'[f[id]] == h[id] {
      assert f[id] in f.Values;
    }
    RenamedNodesSolved(g, g', f, h, h', cut);
  }

  lemma RenamedNodesSolved(g: Graph, g': Graph, f: map<string, string>, h: Memo, h': Memo, cut: bool)
    requires Renamed(g, g', f) && Solves(g, h, cut) && h'.Keys == g'.Keys
    requires forall id <- g :: f[id] in h' && h'[f[id]] == h[id]
    ensures Solves(g', h', cut)
  {
    forall b | b in g'
      ensures Defined(g', g'[b].inputs, h')
      ensures h'[b] == Shape(g'[b].classType, PlainFacts(g', g'[b].inputs), PlainLinks(g', b, g'[b].inputs, h', cut))
    {
      RenamedNodeSolved(g, g', f, h, h', Preimage(f, b), cut);
    }
    hide Renamed, PlainFacts, PlainLinks, Defined, IsLink;
  }

  lemma RenamedNodeSolved(g: Graph, g': Graph, f: map<string, string>, h: Memo, h': Memo, id: string, cut: bool)
    requires Renamed(g, g', f) && Solves(g, h, cut) && id in g
    requires forall x <- g :: f[x] in h' && h'[f[x]] == h[x]
    ensures var b := f[id];
            && b in g' && Defined(g', g'[b].inputs, h')
            && h'[b] == Shape(g'[b].classType, PlainFacts(g', g'[b].inputs), PlainLinks(g', b, g'[b].inputs, h', cut))
  {
    assert f[id] in f.Values;
    RenamedInputsAgree(g, g', f, h, h', id, g[id].inputs, g'[f[id]].inputs, cut);
  }

  ghost function Preimage(f: map<string, string>, b: string): (a: string)
    requires b in f.Values
    ensures a in f && f[a] == b
  {
    var a :| a in f && f[a] == b;
    a
  }

  ghost function Images<T>(order: seq<string>, h: map<string, T>): seq<T>
    requires forall id <- order :: id in h
  {
    seq(|order|, k requires 0 <= k < |order| => h[order[k]])
  }

  lemma ImagesConcat<T>(a: seq<string>, b: seq<string>, h: map<string, T>)
    requires (forall id <- a :: id in h) && (forall id <- b :: id in h)
    ensures forall id <- a + b :: id in h
    ensures Images(a + b, h) == Images(a, h) + Images(b, h)
  {
  }

  lemma SplitAt(b: seq<string>, x: string) returns (left: seq<string>, right: seq<string>)
    requires x in b
    ensures b == left + ([x] + right) && multiset(left + right) == multiset(b) - multiset{x}
  {
    var j :| 0 <= j < |b| && b[j] == x;
    left, right := b[..j], b[j + 1..];
    assert b == left + ([x] + right);
  }

  /** Reordering a list reorders its images. */
  lemma {:induction false} ImagesOfPermutation<T>(a: seq<string>, b: seq<string>, h: map<string, T>)
    requires multiset(a) == multiset(b)
    requires (forall id <- a :: id in h) && (forall id <- b :: id in h)
    ensures multiset(Images(a, h)) == multiset(Images(b, h))
  {
    if a == [] {
      assert |b| == |multiset(b)| == 0;
    } else {
      var x, front := a[|a| - 1], a[..|a| - 1];
      assert a == front + [x];
      assert x in multiset(a);
      var left, right := SplitAt(b, x);
      assert multiset(left + right) == multiset(front);
      ImagesOfPermutation(front, left + right, h);
      assert multiset(Images(a, h)) == multiset(Images(front, h)) + multiset{h[x]} by {
        ImagesConcat(front, [x], h);
        assert Images([x], h) == [h[x]];
      }
      ImagesOfInsertion(left, x, right, h);
    }
  }

  lemma ImagesOfInsertion<T>(left: seq<string>, x: string, right: seq<string>, h: map<string, T>)
    requires (forall id <- left + right :: id in h) && x in h
    ensures forall id <- left + ([x] + right) :: id in h
    ensures multiset(Images(left + ([x] + right), h)) == multiset(Images(left + right, h)) + multiset{h[x]}
  {
    forall id | id in left || id in right ensures id in h {
      assert id in left + right;
    }
    ImagesConcat(left, right, h);
    ImagesConcat([x], right, h);
    ImagesConcat(left, [x] + right, h);
    assert Images([x], h) == [h[x]];
  }

  /** The workflow's shape depends neither on the names of its nodes nor on the order in
      which they are listed, if its only cycles are self-links. */
  lemma {:induction false} ShapeIgnoresNamesAndOrder(
    g: Graph, g': Graph, f: map<string, string>, order: seq<string>, order': seq<string>)
    requires Acyclic(g, true) && Renamed(g, g', f)
    requires (forall id <- order :: id in g) && (forall id <- order' :: id in g')
    requires multiset(order') == multiset(Images(order, f))
    ensures multiset(HashAll(g, order, map[]).0) == multiset(HashAll(g', order', map[]).0)
  {
    var h := ShapeIsImages(g, order);
    var h' := RenamedSolution(g, g', f, h, true);
    SolutionMeansAcyclic(g', h', true);
    var h'' := ShapeIsImages(g', order');
    SolutionIsUnique(g', h', h'', true);
    ImagesOfRenamed(order, f, h, h');
    forall b | b in Images(order, f) ensures b in h' {
      assert b in multiset(order');
    }
    ImagesOfPermutation(Images(order, f), order', h');
  }

  lemma ShapeIsImages(g: Graph, order: seq<string>) returns (h: Memo)
    requires Acyclic(g, true) && forall id <- order :: id in g
    ensures Solves(g, h, true) && HashAll(g, order, map[]).0 == Images(order, h)
  {
    var rank :| Ranked(g, rank, true);
    h := AcyclicHasSolution(g, rank, true);
    HashAllIsPlain(g, rank, h, order, map[], true);
  }

  /** The recursive definition determines every hash. */
  lemma SolutionIsUnique(g: Graph, h: Memo, h': Memo, cut: bool)
    requires Solves(g, h, cut) && Solves(g, h', cut)
    ensures h == h'
  {
    SolutionMeansAcyclic(g, h, cut);
    var rank :| Ranked(g, rank, cut);
    forall id | id in g ensures h[id] == h'[id] {
      HashNodeIsPlain(g, rank, h, id, {}, map[], cut);
      HashNodeIsPlain(g, rank, h', id, {}, map[], cut);
    }
  }

  lemma ImagesOfRenamed(order: seq<string>, f: map<string, string>, h: Memo, h': Memo)
    requires forall id <- order :: id in f && id in h && f[id] in h' && h'[f[id]] == h[id]
    ensures forall b <- Images(order, f) :: b in h'
    ensures Images(Images(order, f), h') == Images(order, h)
  {
  }

  lemma {:induction false} HashOneLink(g: Graph, id: string, i: Input, stack: set<string>, memo: Memo)
    requires id in g && g[id].inputs == [i] && IsLink(g, i)
    requires id !in memo && id !in stack
    ensures var source := HashNode(g, i.pair.value.source, stack + {id}, memo);
            var d := Shape(g[id].classType, [], [LinkDigest(i.name, source.digest, i.pair.value.slot)]);
            HashNode(g, id, stack, memo) == Hashed(d, source.memo[id := d])
  {
    var inputs := g[id].inputs;
    assert inputs[..0] == [] && inputs[0] == i;
    assert HashInputs(g, [], stack + {id}, memo) == Folded([], [], memo);
    var source := HashNode(g, i.pair.value.source, stack + {id}, memo);
    var link := LinkDigest(i.name, source.digest, i.pair.value.slot);
    assert HashInputs(g, inputs, stack + {id}, memo) == Folded([], [] + [link], source.memo);
    assert [] + [link] == [link];
  }

  /** On a longer cycle the shared memo keeps a hash that was cut off at the node the
      walk started from, so the order of the nodes changes the result. */
  lemma CyclicShapeDependsOnOrder()
    ensures var link := (to: string) => Input("in", Some(LinkRef(to, 0)), None);
            var g: Graph := map["a" := Node("A", [link("b")]), "b" := Node("B", [link("a")])];
            multiset(HashAll(g, ["a", "b"], map[]).0) != multiset(HashAll(g, ["b", "a"], map[]).0)
  {
    var toA, toB := Input("in", Some(LinkRef("a", 0)), None), Input("in", Some(LinkRef("b", 0)), None);
    var g: Graph := map["a" := Node("A", [toB]), "b" := Node("B", [toA])];
    var fromA := TwoNodeCycle(g, "a", "b", toB, toA);
    var fromB := TwoNodeCycle(g, "b", "a", toA, toB);
    assert fromA[1].classType == "B" && fromA[1].links[0].source == Cycle("A");
    assert fromB[0].classType == "B" && fromB[0].links[0].source.Shape?;
    assert fromA[1] !in multiset(fromB);
  }

  lemma TwoNodeCycle(g: Graph, x: string, y: string, toY: Input, toX: Input) returns (digests: seq<Digest>)
    requires x != y && x in g && y in g && g[x].inputs == [toY] && g[y].inputs == [toX]
    requires toY.pair == Some(LinkRef(y, 0)) && toX.pair == Some(LinkRef(x, 0))
    ensures digests == HashAll(g, [x, y], map[]).0
    ensures var inner := Shape(g[y].classType, [], [LinkDigest(toX.name, Cycle(g[x].classType), 0)]);
            digests == [Shape(g[x].classType, [], [LinkDigest(toY.name, inner, 0)]), inner]
  {
    digests := HashAll(g, [x, y], map[]).0;
    HashOneLink(g, x, toY, {}, map[]);
    HashOneLink(g, y, toX, {} + {x}, map[]);
    var m := HashNode(g, x, {}, map[]).memo;
    assert [x, y][..1] == [x] && [x][..0] == [];
    assert HashAll(g, [], map[]) == ([], map[]);
    assert HashAll(g, [x], map[]).1 == m;
    assert y in m;
  }
}
