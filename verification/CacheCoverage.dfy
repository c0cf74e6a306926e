/** How much of a required set of digests one volume can serve
    (cloud_offload/cache_registry.py, `volume_coverage`). */
module CacheCoverage {
  import opened Prelude
  import opened CacheIndex

  /** A candidate: an artifact of the selected manifest, or a row of the table.  Only the
      former may meet a logical requirement. */
  datatype Line = Line(artifact: Artifact, eligible: bool, logical: Option<string>, manifest: ManifestId)

  /** `hits` are the entries of the sorted list of cached digests. */
  datatype Coverage = Coverage(
    hits: multiset<Digest>, digests: set<Digest>, cached: int, required: int, complete: bool, logical: set<string>,
    selected: Option<ManifestId>, manifests: set<ManifestId>)

  ghost function Total(m: map<Digest, int>): int {
    if m == map[] then 0
    else
      var d :| d in m;
      m[d] + Total(m - {d})
  }

  lemma {:induction false} TotalWithout(m: map<Digest, int>, d: Digest)
    requires d in m
    ensures Total(m) == m[d] + Total(m - {d})
    decreases m.Keys
  {
    var e :| e in m && Total(m) == m[e] + Total(m - {e});
    if d != e {
      TotalWithout(m - {e}, d);
      assert m - {e} - {d} == m - {d} - {e};
      TotalWithout(m - {d}, e);
    }
  }

  lemma TotalWith(m: map<Digest, int>, d: Digest, n: int)
    requires d !in m
    ensures Total(m[d := n]) == Total(m) + n
  {
    TotalWithout(m[d := n], d);
    assert m[d := n] - {d} == m;
  }

  /** Leaving out entries that are not negative lowers the total. */
  lemma {:induction false} TotalOfPart(part: map<Digest, int>, whole: map<Digest, int>)
    requires forall d <- part :: d in whole && whole[d] == part[d]
    requires forall d <- whole | d !in part :: whole[d] >= 0
    ensures Total(part) <= Total(whole)
    decreases whole.Keys
  {
    if d :| d in whole {
      TotalWithout(whole, d);
      if d in part {
        TotalWithout(part, d);
        TotalOfPart(part - {d}, whole - {d});
      } else {
        TotalOfPart(part, whole - {d});
      }
    } else {
      assert part == map[];
    }
  }

  /** The newest manifest of a profile. */
  predicate IsSelected(s: Shelf, profile: string, m: ManifestId) {
    && m in s.manifests && s.manifests[m].profile == profile
    && forall n <- s.manifests | s.manifests[n].profile == profile && n != m :: Newer(m, s.manifests[m], n, s.manifests[n])
  }

  predicate HasProfile(s: Shelf, profile: string) {
    exists m <- s.manifests :: s.manifests[m].profile == profile
  }

  ghost predicate SelectionIs(s: Shelf, profile: string, selected: Option<ManifestId>) {
    if profile != "" && HasProfile(s, profile) then selected.Some? && IsSelected(s, profile, selected.value) else selected.None?
  }

  lemma {:induction false} SelectionExists(s: Shelf, among: set<ManifestId>)
    requires among <= s.manifests.Keys && among != {}
    ensures exists m <- among :: IsTopOf(s, among, m)
    decreases among
  {
    var m :| m in among;
    var rest := among - {m};
    assert among == rest + {m};
    if rest == {} {
      assert IsTopOf(s, among, m);
    } else {
      SelectionExists(s, rest);
      var n :| n in rest && IsTopOf(s, rest, n);
      assert IsTopOf(s, among, if Newer(m, s.manifests[m], n, s.manifests[n]) then m else n);
    }
  }

  predicate IsTopOf(s: Shelf, among: set<ManifestId>, m: ManifestId)
    requires among <= s.manifests.Keys
  {
    m in among && forall n <- among | n != m :: Newer(m, s.manifests[m], n, s.manifests[n])
  }

  method Select(s: Shelf, profile: string) returns (selected: Option<ManifestId>)
    ensures SelectionIs(s, profile, selected)
    ensures selected.Some? <==> profile != "" && exists m <- s.manifests :: s.manifests[m].profile == profile
    ensures selected.Some? ==>
              var m := selected.value;
              && m in s.manifests && s.manifests[m].profile == profile
              && forall n <- s.manifests | s.manifests[n].profile == profile && n != m ::
                   || s.manifests[n].created < s.manifests[m].created
                   || (s.manifests[n].created == s.manifests[m].created && n < m)
  {
    var among := set m | m in s.manifests && s.manifests[m].profile == profile;
    if profile == "" || among == {} {
      if HasProfile(s, profile) {
        var m :| m in s.manifests && s.manifests[m].profile == profile;
        assert m in among;
      }
      return None;
    }
    SelectionExists(s, among);
    var m :| m in among && IsTopOf(s, among, m);
    selected := Some(m);
  }

  /******* Candidates *******/

  function FromManifest(s: Shelf, m: ManifestId, a: Artifact): Line {
    Line(a, a.digest !in s.invalid, a.logical, m)
  }

  function FromTable(row: Row): Line {
    Line(row.artifact, row.eligibility == Eligible, None, row.manifest)
  }

  /** The table serves this digest: always without a profile; with one, only the required
      digests that the selected manifest does not list. */
  predicate TableServes(s: Shelf, profile: string, selected: Option<ManifestId>, required: map<Digest, int>, d: Digest)
    requires selected.Some? ==> selected.value in s.manifests
  {
    d in s.rows && (profile == "" || (d in required && (selected.Some? ==> d !in Listed(s.manifests[selected.value]))))
  }

  /** The candidates of a volume. */
  ghost predicate IsCandidate(s: Shelf, profile: string, selected: Option<ManifestId>, required: map<Digest, int>,
                        line: Line)
    requires selected.Some? ==> selected.value in s.manifests
  {
    || (selected.Some? && exists a <- s.manifests[selected.value].artifacts :: line == FromManifest(s, selected.value, a))
    || (exists d <- s.rows :: TableServes(s, profile, selected, required, d) && line == FromTable(s.rows[d]))
  }

  /** The table's key is the digest. */
  predicate RowsAreKeyed(s: Shelf) {
    forall d <- s.rows :: s.rows[d].artifact.digest == d
  }

  predicate IsRow(s: Shelf, line: Line) {
    exists d <- s.rows :: line == FromTable(s.rows[d])
  }

  /** The artifacts of the selected manifest come first, each as often as it is listed there; a
      digest is taken from the table once. */
  ghost predicate ListsOnce(s: Shelf, selected: Option<ManifestId>, lines: seq<Line>)
    requires selected.Some? ==> selected.value in s.manifests
  {
    var artifacts := if selected.Some? then s.manifests[selected.value].artifacts else [];
    && |artifacts| <= |lines|
    && (forall i | 0 <= i < |artifacts| :: lines[i] == FromManifest(s, selected.value, artifacts[i]))
    && (forall i | |artifacts| <= i < |lines| :: IsRow(s, lines[i]))
    && (forall i, j | |artifacts| <= i < j < |lines| :: lines[i].artifact.digest != lines[j].artifact.digest)
  }

  method Gather(s: Shelf, profile: string, selected: Option<ManifestId>, required: map<Digest, int>)
    returns (lines: seq<Line>)
    requires SelectionIs(s, profile, selected) && RowsAreKeyed(s)
    ensures forall line :: line in lines <==> IsCandidate(s, profile, selected, required, line)
    ensures selected.Some? ==> selected.value in s.manifests
    ensures ListsOnce(s, selected, lines)
  {
    lines := [];
    if selected.Some? {
      lines := FromArtifacts(s, selected.value);
    }
    var present := set l <- lines :: l.artifact.digest;
    var wanted := if profile == "" then s.rows.Keys else required.Keys - present;
    assert forall d :: d in wanted && d in s.rows <==> TableServes(s, profile, selected, required, d) by {
      if selected.Some? {
        PresentAreListed(s, selected.value, lines);
      }
    }
    var more := FromRows(s, wanted);
    assert forall line <- more :: IsRow(s, line);
    JoinedAreRows(s, lines, more, lines + more);
    lines := lines + more;
  }

  lemma JoinedAreRows(s: Shelf, lines: seq<Line>, more: seq<Line>, joined: seq<Line>)
    requires (forall line <- more :: IsRow(s, line)) && joined == lines + more
    ensures forall i | |lines| <= i < |joined| :: IsRow(s, joined[i])
  {
    hide IsRow;
    forall i | |lines| <= i < |joined| ensures IsRow(s, joined[i]) {
      assert more[i - |lines|] in more && joined[i] == more[i - |lines|];
    }
  }

  lemma PresentAreListed(s: Shelf, m: ManifestId, lines: seq<Line>)
    requires m in s.manifests
    requires forall line :: line in lines <==> exists a <- s.manifests[m].artifacts :: line == FromManifest(s, m, a)
    ensures (set l <- lines :: l.artifact.digest) == Listed(s.manifests[m])
  {
    forall a <- s.manifests[m].artifacts ensures a.digest in set l <- lines :: l.artifact.digest {
      assert FromManifest(s, m, a) in lines;
    }
  }

  method FromArtifacts(s: Shelf, m: ManifestId) returns (lines: seq<Line>)
    requires m in s.manifests
    ensures forall line :: line in lines <==> exists a <- s.manifests[m].artifacts :: line == FromManifest(s, m, a)
    ensures |lines| == |s.manifests[m].artifacts|
    ensures forall i | 0 <= i < |lines| :: lines[i] == FromManifest(s, m, s.manifests[m].artifacts[i])
  {
    lines := [];
    var artifacts := s.manifests[m].artifacts;
    for i := 0 to |artifacts|
      invariant |lines| == i && forall k | 0 <= k < i :: lines[k] == FromManifest(s, m, artifacts[k])
    {
      lines := lines + [FromManifest(s, m, artifacts[i])];
    }
    forall a <- artifacts ensures FromManifest(s, m, a) in lines {
      var k :| 0 <= k < |artifacts| && artifacts[k] == a;
      assert lines[k] == FromManifest(s, m, a);
    }
  }

  method FromRows(s: Shelf, wanted: set<Digest>) returns (lines: seq<Line>)
    requires RowsAreKeyed(s)
    ensures forall line :: line in lines <==> exists d <- s.rows :: d in wanted && line == FromTable(s.rows[d])
    ensures forall i, j | 0 <= i < j < |lines| :: lines[i].artifact.digest != lines[j].artifact.digest
  {
    lines := [];
    var todo := wanted * s.rows.Keys;
    while todo != {}
      invariant todo <= wanted * s.rows.Keys
      invariant forall line :: line in lines <==> exists d <- s.rows :: d in wanted && d !in todo && line == FromTable(s.rows[d])
      invariant forall i | 0 <= i < |lines| :: lines[i].artifact.digest !in todo
      invariant forall i, j | 0 <= i < j < |lines| :: lines[i].artifact.digest != lines[j].artifact.digest
      decreases todo
    {
      var d :| d in todo;
      lines := lines + [FromTable(s.rows[d])];
      todo := todo - {d};
    }
  }

  /******* Counting *******/

  predicate IsUsable(line: Line, accepts: (string, string) -> bool) {
    line.eligible && accepts(line.artifact.compatibility, line.artifact.policy)
  }

  /** The line meets a requirement. */
  predicate IsHit(line: Line, accepts: (string, string) -> bool, required: map<Digest, int>) {
    IsUsable(line, accepts) && (line.artifact.digest in required || line.logical.Some?)
  }

  function Hits(lines: seq<Line>, accepts: (string, string) -> bool, required: map<Digest, int>): set<Digest> {
    set l <- lines | IsHit(l, accepts, required) :: l.artifact.digest
  }

  function Sources(lines: seq<Line>, accepts: (string, string) -> bool, required: map<Digest, int>): set<ManifestId> {
    set l <- lines | IsHit(l, accepts, required) :: l.manifest
  }

  function LogicalHits(lines: seq<Line>, accepts: (string, string) -> bool): set<string> {
    set l <- lines | IsUsable(l, accepts) && l.logical.Some? :: l.logical.value
  }

  /** The digests of the lines that are hit, in order. */
  function HitList(lines: seq<Line>, accepts: (string, string) -> bool, required: map<Digest, int>): seq<Digest> {
    if lines == [] then []
    else
      var before, line := HitList(lines[..|lines| - 1], accepts, required), lines[|lines| - 1];
      if IsHit(line, accepts, required) then before + [line.artifact.digest] else before
  }

  /** Where the digest is hit. */
  function HitsOf(lines: seq<Line>, accepts: (string, string) -> bool, required: map<Digest, int>,
                  d: Digest): set<int> {
    set i | 0 <= i < |lines| && IsHit(lines[i], accepts, required) && lines[i].artifact.digest == d
  }

  lemma {:induction false} HitListCounts(lines: seq<Line>, accepts: (string, string) -> bool,
                        required: map<Digest, int>,
                                         d: Digest)
    ensures multiset(HitList(lines, accepts, required))[d] == |HitsOf(lines, accepts, required, d)|
  {
    if lines != [] {
      var n := |lines| - 1;
      HitListCounts(lines[..n], accepts, required, d);
      OneMoreHit(lines, accepts, required, d);
      assert lines[..n + 1] == lines;
      NextHit(lines, n, accepts, required);
      hide IsHit, HitList, HitsOf;
    }
  }

  lemma OneMoreHit(lines: seq<Line>, accepts: (string, string) -> bool, required: map<Digest, int>, d: Digest)
    requires lines != []
    ensures var n := |lines| - 1;
            |HitsOf(lines, accepts, required, d)| == |HitsOf(lines[..n], accepts, required, d)|
              + if IsHit(lines[n], accepts, required) && lines[n].artifact.digest == d then 1 else 0
  {
    HitsOfNext(lines, accepts, required, d);
    hide IsHit, HitsOf;
  }

  lemma HitsOfNext(lines: seq<Line>, accepts: (string, string) -> bool, required: map<Digest, int>, d: Digest)
    requires lines != []
    ensures var n := |lines| - 1;
            var before := HitsOf(lines[..n], accepts, required, d);
            && n !in before
            && HitsOf(lines, accepts, required, d) ==
               before + if IsHit(lines[n], accepts, required) && lines[n].artifact.digest == d then {n} else {}
  {
    hide IsHit;
    assert forall i | 0 <= i < |lines| - 1 :: lines[..|lines| - 1][i] == lines[i];
  }

  lemma NextHit(lines: seq<Line>, i: nat, accepts: (string, string) -> bool, required: map<Digest, int>)
    requires i < |lines|
    ensures HitList(lines[..i + 1], accepts, required) ==
            HitList(lines[..i], accepts, required)
            + if IsHit(lines[i], accepts, required) then [lines[i].artifact.digest] else []
  {
    assert lines[..i + 1][..i] == lines[..i];
    hide IsHit;
  }

  lemma NextLine(lines: seq<Line>, i: nat, accepts: (string, string) -> bool, required: map<Digest, int>)
    requires i < |lines|
    ensures var before, l, after := lines[..i], lines[i], lines[..i + 1];
            && Hits(after, accepts, required) ==
               Hits(before, accepts, required) + (if IsHit(l, accepts, required) then {l.artifact.digest} else {})
            && Sources(after, accepts, required) ==
               Sources(before, accepts, required) + (if IsHit(l, accepts, required) then {l.manifest} else {})
            && LogicalHits(after, accepts) ==
               LogicalHits(before, accepts) + (if IsUsable(l, accepts) && l.logical.Some? then {l.logical.value} else {})
  {
    assert lines[..i + 1] == lines[..i] + [lines[i]];
    hide IsHit, IsUsable;
  }

  /** Each digest weighs its required size, or the size of a candidate. */
  ghost predicate AreWeights(weights: map<Digest, int>, lines: seq<Line>, required: map<Digest, int>) {
    forall d <- weights :: if d in required then weights[d] == required[d]
                           else exists l <- lines :: l.artifact.digest == d && weights[d] == l.artifact.size
  }

  lemma OneMoreWeight(weights: map<Digest, int>, lines: seq<Line>, required: map<Digest, int>, line: Line)
    requires AreWeights(weights, lines, required) && line in lines
    ensures var d := line.artifact.digest;
            AreWeights(weights[d := if d in required then required[d] else line.artifact.size], lines, required)
  {
  }

  /** Adds up the usable candidates; a digest is counted once, at its required size if it is
      required. */
  method Accumulate(lines: seq<Line>, accepts: (string, string) -> bool, required: map<Digest, int>)
    returns (hits: seq<Digest>, digests: set<Digest>, covered: int, requiredHits: set<Digest>, logical: set<string>, manifests: set<ManifestId>,
             ghost weights: map<Digest, int>)
    ensures hits == HitList(lines, accepts, required)
    ensures digests == Hits(lines, accepts, required) && requiredHits == digests * required.Keys
    ensures logical == LogicalHits(lines, accepts) && manifests == Sources(lines, accepts, required)
    ensures weights.Keys == digests && covered == Total(weights) && AreWeights(weights, lines, required)
  {
    hide Hits, HitList, Sources, LogicalHits, AreWeights, Total;
    hits, digests, covered, requiredHits, logical, manifests, weights := [], {}, 0, {}, {}, {}, map[];
    NoLines(accepts, required, lines);
    for i := 0 to |lines|
      invariant hits == HitList(lines[..i], accepts, required)
      invariant digests == Hits(lines[..i], accepts, required) && requiredHits == digests * required.Keys
      invariant logical == LogicalHits(lines[..i], accepts) && manifests == Sources(lines[..i], accepts, required)
      invariant weights.Keys == digests && covered == Total(weights) && AreWeights(weights, lines, required)
    {
      var line := lines[i];
      NextLine(lines, i, accepts, required);
      NextHit(lines, i, accepts, required);
      if !IsUsable(line, accepts) {
        continue;
      }
      var d := line.artifact.digest;
      if line.logical.Some? {
        logical := logical + {line.logical.value};
      }
      if d in required {
        requiredHits := requiredHits + {d};
      }
      if d !in required && line.logical.None? {
        continue;
      }
      hits := hits + [d];
      if d !in digests {
        var n := if d in required then required[d] else line.artifact.size;
        TotalWith(weights, d, n);
        OneMoreWeight(weights, lines, required, line);
        covered, weights := covered + n, weights[d := n];
      }
      digests := digests + {d};
      manifests := manifests + {line.manifest};
    }
    assert lines[..|lines|] == lines;
  }

  lemma NoLines(accepts: (string, string) -> bool, required: map<Digest, int>, lines: seq<Line>)
    ensures lines[..0] == [] && HitList([], accepts, required) == []
    ensures Hits([], accepts, required) == {} && Sources([], accepts, required) == {} && LogicalHits([], accepts) == {}
    ensures Total(map[]) == 0 && AreWeights(map[], lines, required)
  {
  }

  /******* Coverage *******/

  /** A usable candidate carries the digest. */
  ghost predicate Serves(s: Shelf, profile: string, selected: Option<ManifestId>, required: map<Digest, int>,
                         accepts: (string, string) -> bool, d: Digest)
    requires selected.Some? ==> selected.value in s.manifests
  {
    exists l :: && IsCandidate(s, profile, selected, required, l) && l.artifact.digest == d
                && l.eligible && accepts(l.artifact.compatibility, l.artifact.policy)
  }

  /** A usable artifact of the selected manifest meets the logical requirement. */
  ghost predicate Meets(s: Shelf, selected: Option<ManifestId>, accepts: (string, string) -> bool, key: string)
    requires selected.Some? ==> selected.value in s.manifests
  {
    selected.Some? && exists a <- s.manifests[selected.value].artifacts ::
                        a.logical == Some(key) && a.digest !in s.invalid && accepts(a.compatibility, a.policy)
  }

  /** The coverage of a ready volume.  It is complete exactly when a manifest of the profile is
      stored (if a profile is asked for), every required digest is served and every logical
      requirement met; a complete volume holds at least the required bytes if no size is
      negative. */
  method VolumeCoverage(s: Shelf, required: map<Digest, int>, profile: string, accepts: (string, string) -> bool,
                        logicalRequired: set<string>)
    returns (r: Option<Coverage>, ghost lines: seq<Line>, ghost weights: map<Digest, int>)
    requires RowsAreKeyed(s)
    ensures r.Some? <==> s.status == Ready
    ensures r.Some? ==>
              var c := r.value;
              && SelectionIs(s, profile, c.selected)
              && c.required == Total(required)
              && (c.complete <==> && (profile == "" || HasProfile(s, profile))
                                  && (forall d <- required :: Serves(s, profile, c.selected, required, accepts, d))
                                  && (forall key <- logicalRequired :: Meets(s, c.selected, accepts, key)))
              && (forall key :: key in c.logical <==> Meets(s, c.selected, accepts, key))
              && (forall line :: line in lines <==> IsCandidate(s, profile, c.selected, required, line))
              && ListsOnce(s, c.selected, lines)
              && (forall d :: c.hits[d] == |HitsOf(lines, accepts, required, d)|)
              && c.digests == Hits(lines, accepts, required) && c.manifests == Sources(lines, accepts, required)
              && weights.Keys == c.digests && c.cached == Total(weights) && AreWeights(weights, lines, required)
    ensures r.Some? && r.value.complete && SizesAreNat(s) ==> r.value.cached >= r.value.required
  {
    hide Hits, HitsOf, ListsOnce, Sources, LogicalHits, AreWeights, IsCandidate, Serves, Meets, Total, SizesAreNat, HasProfile, IsSelected;
    lines, weights := [], map[];
    if s.status != Ready {
      return None, lines, weights;
    }
    var selected := Select(s, profile);
    SelectedIsStored(s, profile, selected);
    var candidates := Gather(s, profile, selected, required);
    var c, weighed := Measure(candidates, selected, profile, required, accepts, logicalRequired);
    CompleteMeans(s, profile, selected, required, accepts, logicalRequired, candidates);
    if c.complete && SizesAreNat(s) {
      WeightsAreNat(s, profile, selected, required, candidates, weighed);
      TotalOfPart(required, weighed);
    }
    r, lines, weights := Some(c), candidates, weighed;
  }

  method Measure(lines: seq<Line>, selected: Option<ManifestId>, profile: string, required: map<Digest, int>,
                 accepts: (string, string) -> bool, logicalRequired: set<string>)
    returns (c: Coverage, ghost weights: map<Digest, int>)
    ensures forall d :: c.hits[d] == |HitsOf(lines, accepts, required, d)|
    ensures c.digests == Hits(lines, accepts, required) && c.manifests == Sources(lines, accepts, required)
    ensures c.logical == LogicalHits(lines, accepts) && c.required == Total(required) && c.selected == selected
    ensures weights.Keys == c.digests && c.cached == Total(weights) && AreWeights(weights, lines, required)
    ensures c.complete <==> (selected.Some? || profile == "") && required.Keys <= c.digests && logicalRequired <= c.logical
    ensures c.complete ==> forall d <- required :: d in weights && weights[d] == required[d]
  {
    var hits, digests, covered, requiredHits, logical, manifests, weighed := Accumulate(lines, accepts, required);
    var total := SumOfSizes(required);
    SameSize(requiredHits, required);
    assert requiredHits == required.Keys <==> required.Keys <= digests;
    var complete := (selected.Some? || profile == "") && |requiredHits| == |required| && logicalRequired <= logical;
    forall d ensures multiset(hits)[d] == |HitsOf(lines, accepts, required, d)| {
      HitListCounts(lines, accepts, required, d);
    }
    c := Coverage(multiset(hits), digests, covered, total, complete, logical, selected, manifests);
    weights := weighed;
  }

  lemma SelectedIsStored(s: Shelf, profile: string, selected: Option<ManifestId>)
    requires SelectionIs(s, profile, selected)
    ensures selected.Some? ==> selected.value in s.manifests
    ensures selected.Some? || profile == "" <==> profile == "" || HasProfile(s, profile)
  {
  }

  lemma CompleteMeans(s: Shelf, profile: string, selected: Option<ManifestId>, required: map<Digest, int>,
                      accepts: (string, string) -> bool, logicalRequired: set<string>, lines: seq<Line>)
    requires selected.Some? ==> selected.value in s.manifests
    requires forall line :: line in lines <==> IsCandidate(s, profile, selected, required, line)
    ensures required.Keys <= Hits(lines, accepts, required) <==>
              forall d <- required :: Serves(s, profile, selected, required, accepts, d)
    ensures logicalRequired <= LogicalHits(lines, accepts) <==>
              forall key <- logicalRequired :: Meets(s, selected, accepts, key)
    ensures forall key :: key in LogicalHits(lines, accepts) <==> Meets(s, selected, accepts, key)
  {
    HitsAreServed(s, profile, selected, required, accepts, lines);
    hide Hits, LogicalHits, IsCandidate, Serves, Meets;
  }

  method SumOfSizes(required: map<Digest, int>) returns (total: int)
    ensures total == Total(required)
  {
    total := 0;
    var todo := required;
    while todo != map[]
      invariant total + Total(todo) == Total(required)
      decreases todo.Keys
    {
      var d :| d in todo;
      TotalWithout(todo, d);
      total := total + todo[d];
      todo := todo - {d};
    }
  }

  ghost predicate SizesAreNat(s: Shelf) {
    && (forall m <- s.manifests, a <- s.manifests[m].artifacts :: a.size >= 0)
    && (forall d <- s.rows :: s.rows[d].artifact.size >= 0)
  }

  /** A set of required digests of the same size is all of them. */
  lemma SameSize(hits: set<Digest>, required: map<Digest, int>)
    requires hits <= required.Keys
    ensures |hits| == |required| <==> hits == required.Keys
  {
    assert |required.Keys| == |required|;
    if |hits| == |required| {
      assert |required.Keys - hits| == 0;
      assert required.Keys - hits == {};
    }
  }

  lemma HitsAreServed(s: Shelf, profile: string, selected: Option<ManifestId>, required: map<Digest, int>,
                      accepts: (string, string) -> bool, lines: seq<Line>)
    requires selected.Some? ==> selected.value in s.manifests
    requires forall line :: line in lines <==> IsCandidate(s, profile, selected, required, line)
    ensures forall d <- required :: d in Hits(lines, accepts, required) <==> Serves(s, profile, selected, required, accepts, d)
    ensures forall d <- Hits(lines, accepts, required) :: Serves(s, profile, selected, required, accepts, d)
    ensures forall key :: key in LogicalHits(lines, accepts) <==> Meets(s, selected, accepts, key)
  {
    hide TableServes;
    forall d <- required | Serves(s, profile, selected, required, accepts, d) ensures d in Hits(lines, accepts, required) {
      var l :| IsCandidate(s, profile, selected, required, l) && IsUsable(l, accepts) && l.artifact.digest == d;
      assert l in lines && IsHit(l, accepts, required);
    }
    forall key | Meets(s, selected, accepts, key) ensures key in LogicalHits(lines, accepts) {
      var a :| a in s.manifests[selected.value].artifacts && a.logical == Some(key)
               && a.digest !in s.invalid && accepts(a.compatibility, a.policy);
      assert IsCandidate(s, profile, selected, required, FromManifest(s, selected.value, a));
      assert FromManifest(s, selected.value, a) in lines;
    }
  }

  lemma WeightsAreNat(s: Shelf, profile: string, selected: Option<ManifestId>, required: map<Digest, int>,
                      lines: seq<Line>, weights: map<Digest, int>)
    requires selected.Some? ==> selected.value in s.manifests
    requires forall line :: line in lines <==> IsCandidate(s, profile, selected, required, line)
    requires AreWeights(weights, lines, required) && SizesAreNat(s)
    ensures forall d <- weights | d !in required :: weights[d] >= 0
  {
    forall d <- weights | d !in required ensures weights[d] >= 0 {
      var l :| l in lines && l.artifact.digest == d && weights[d] == l.artifact.size;
      assert IsCandidate(s, profile, selected, required, l);
    }
  }

  /** An artifact of the selected manifest may serve exactly when its digest is not invalidated,
      a row exactly when it is eligible; so nothing invalidated ever serves. */
  lemma CandidateIsEligible(s: Shelf, profile: string, selected: Option<ManifestId>, required: map<Digest, int>,
                            line: Line)
    requires Guarded(s) && RowsAreKeyed(s) && (selected.Some? ==> selected.value in s.manifests)
    requires IsCandidate(s, profile, selected, required, line)
    ensures line.eligible ==> line.artifact.digest !in s.invalid
    ensures !line.eligible ==>
              || line.artifact.digest in s.invalid
              || (line.artifact.digest in s.rows && s.rows[line.artifact.digest].eligibility != Eligible)
  {
  }

  /** On a ready volume every candidate is sound: nothing is invalidated, so the judgement made
      from a manifest agrees with the one stored in the table. */
  lemma ReadyCandidatesAreSound(s: Shelf, profile: string, selected: Option<ManifestId>, required: map<Digest, int>,
                        line: Line)
    requires Indexed(s) && Guarded(s) && Healthy(s) && s.status == Ready
    requires selected.Some? ==> selected.value in s.manifests
    requires IsCandidate(s, profile, selected, required, line)
    ensures line.eligible && line.artifact.digest !in s.invalid
    ensures line.artifact.digest in s.rows && s.rows[line.artifact.digest].eligibility == Eligible
    ensures line.manifest in s.manifests && line.artifact in s.manifests[line.manifest].artifacts
  {
    if selected.Some? && exists a <- s.manifests[selected.value].artifacts :: line == FromManifest(s, selected.value, a) {
      assert line.artifact.digest in Listed(s.manifests[selected.value]);
    }
  }
}
